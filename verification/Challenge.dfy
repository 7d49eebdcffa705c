/** Challenges: the canonical preimage, verification, and counters on the wire. */
module Challenge {
  import opened Common
  import opened Decimal
  import opened ProofOfWork

  datatype Challenge = Challenge(
    version: int, id: string, resource: string, algo: string, difficulty: int,
    salt: string, bind: string, issuedAt: int, expiresAt: int, plan: string)

  /** The two hash functions, uninterpreted. */
  datatype Hashes = Hashes(sha256: string -> Digest, blake3: string -> Digest)

  const ALGO_SHA256 := "sha256"

  /** Fields separated by bars, ending in `last`. */
  function Joined(fields: seq<string>, last: string): string {
    if fields == [] then last else fields[0] + "|" + Joined(fields[1..], last)
  }

  function HashedFields(c: Challenge): seq<string> {
    ["pow-v" + DecInt(c.version), c.id, c.resource, c.algo, DecInt(c.difficulty), c.salt, c.bind]
  }

  function Preimage(c: Challenge, counter: string): string {
    Joined(HashedFields(c), counter)
  }

  function DigestOf(h: Hashes, c: Challenge, preimage: string): Digest {
    if c.algo == ALGO_SHA256 then h.sha256(preimage) else h.blake3(preimage)
  }

  // ---- Preimages do not collide ----

  predicate NoBar(s: string) { '|' !in s }

  /** The first bar determines where the first field ends. */
  lemma {:induction false} FirstField(a: string, x: string, b: string, y: string)
    requires NoBar(a) && NoBar(b) && a + "|" + x == b + "|" + y
    ensures a == b && x == y
  {
    if a != "" && b != "" {
      assert (a + "|" + x)[0] == a[0] && (b + "|" + y)[0] == b[0];
      assert a[1..] + "|" + x == (a + "|" + x)[1..] == (b + "|" + y)[1..] == b[1..] + "|" + y;
      FirstField(a[1..], x, b[1..], y);
      assert a == [a[0]] + a[1..] && b == [b[0]] + b[1..];
    } else {
      assert (a + "|")[0] == (a + "|" + x)[0] == (b + "|" + y)[0] == (b + "|")[0];
      assert a == "" && b == "";
      assert (a + "|" + x)[1..] == x && (b + "|" + y)[1..] == y;
    }
  }

  lemma {:induction false} JoinedInjective(f: seq<string>, x: string, g: seq<string>, y: string)
    requires |f| == |g| && Joined(f, x) == Joined(g, y)
    requires forall i :: 0 <= i < |f| ==> NoBar(f[i]) && NoBar(g[i])
    ensures f == g && x == y
  {
    if f != [] {
      FirstField(f[0], Joined(f[1..], x), g[0], Joined(g[1..], y));
      JoinedInjective(f[1..], x, g[1..], y);
      assert f == [f[0]] + f[1..] && g == [g[0]] + g[1..];
    }
  }

  lemma NumbersHaveNoBar(x: int)
    ensures NoBar(DecInt(x))
  {
    DecIsNumber(if x < 0 then -x else x);
  }

  predicate BarFree(c: Challenge) {
    NoBar(c.id) && NoBar(c.resource) && NoBar(c.algo) && NoBar(c.salt) && NoBar(c.bind)
  }

  lemma FieldsHaveNoBar(c: Challenge)
    requires BarFree(c)
    ensures forall i :: 0 <= i < 7 ==> NoBar(HashedFields(c)[i])
  {
    NumbersHaveNoBar(c.version);
    NumbersHaveNoBar(c.difficulty);
  }

  /** Equal preimages come from the same hashed fields and the same counter text,
      even if the counter contains bars. */
  lemma PreimageInjective(c: Challenge, x: string, d: Challenge, y: string)
    requires BarFree(c) && BarFree(d) && Preimage(c, x) == Preimage(d, y)
    ensures c.version == d.version && c.id == d.id && c.resource == d.resource && c.algo == d.algo
    ensures c.difficulty == d.difficulty && c.salt == d.salt && c.bind == d.bind && x == y
  {
    FieldsHaveNoBar(c);
    FieldsHaveNoBar(d);
    var f, g := HashedFields(c), HashedFields(d);
    JoinedInjective(f, x, g, y);
    assert f[0] == g[0] && f[1] == g[1] && f[2] == g[2] && f[3] == g[3] && f[4] == g[4] && f[5] == g[5] && f[6] == g[6];
    assert f[0][5..] == DecInt(c.version) && g[0][5..] == DecInt(d.version);
    DecIntInjective(c.version, d.version);
    DecIntInjective(c.difficulty, d.difficulty);
  }

  // ---- Verification ----

  predicate Wins(h: Hashes, c: Challenge, counter: string) {
    1 <= |counter| <= 20 && Meets(DigestOf(h, c, Preimage(c, counter)), c.difficulty)
  }

  const MAX_COUNTERS := 8

  predicate FirstWin(h: Hashes, c: Challenge, counters: seq<string>, i: nat) {
    && i < |counters| && i < MAX_COUNTERS && Wins(h, c, counters[i])
    && forall j :: 0 <= j < i ==> !Wins(h, c, counters[j])
  }

  /** Verify accepts exactly when one of the first eight counters wins, and then
      reports the leading zero bits of the first winner. */
  method Verify(h: Hashes, c: Challenge, counters: seq<string>) returns (bits: Option<nat>)
    ensures bits.Some? <==> exists i :: 0 <= i < |counters| && i < MAX_COUNTERS && Wins(h, c, counters[i])
    ensures bits.Some? ==> exists i: nat ::
        FirstWin(h, c, counters, i) && LeadingZeros(DigestOf(h, c, Preimage(c, counters[i])), bits.value)
  {
    if |counters| == 0 { return None; }
    var tried := if |counters| > MAX_COUNTERS then counters[..MAX_COUNTERS] else counters;
    for i := 0 to |tried|
      invariant forall j :: 0 <= j < i ==> !Wins(h, c, counters[j])
    {
      var ctr := tried[i];
      if |ctr| == 0 || |ctr| > 20 { continue; }
      var d := DigestOf(h, c, Preimage(c, ctr));
      var ok := Satisfies(d, c.difficulty);
      if ok {
        var n := LeadingZeroBits(d);
        assert FirstWin(h, c, counters, i);
        return Some(n);
      }
    }
    bits := None;
  }

  // ---- Counters ----

  const COUNTER_DIGITS: nat := 10

  /** CounterToBytes; larger counters make the original panic. */
  method CounterToBytes(counter: nat) returns (out: array<char>)
    requires counter < Pow10(COUNTER_DIGITS)
    ensures fresh(out) && out[..] == Padded(Dec(counter), 10) && out.Length == 10
  {
    out := new char[COUNTER_DIGITS];
    var s := Dec(counter);
    DecLength(counter, COUNTER_DIGITS);
    var i := 0;
    while i < out.Length
      invariant 0 <= i <= out.Length && forall j :: 0 <= j < i ==> out[j] == '0'
    {
      out[i] := '0';
      i := i + 1;
    }
    i := 0;
    var start := out.Length - |s|;
    while i < |s|
      invariant 0 <= i <= |s|
      invariant forall j :: 0 <= j < start ==> out[j] == '0'
      invariant forall j :: 0 <= j < i ==> out[start + j] == s[j]
    {
      out[start + i] := s[i];
      i := i + 1;
    }
    assert out[..] == Zeros(start) + s;
  }

  function CounterFromBytes(b: string): Option<nat> {
    if |b| != COUNTER_DIGITS then None else Parse(b)
  }

  lemma CounterRoundTrip(counter: nat)
    requires counter < Pow10(10)
    ensures CounterFromBytes(Padded(Dec(counter), 10)) == Some(counter)
  {
    PrintThenParse(counter, COUNTER_DIGITS);
    DecLength(counter, COUNTER_DIGITS);
  }

  /** Parsing succeeds on exactly the ten-digit texts, and printing undoes it. */
  lemma CounterTextRoundTrip(b: string)
    ensures CounterFromBytes(b).Some? <==> |b| == 10 && AllDigits(b)
    ensures CounterFromBytes(b).Some? ==>
      CounterFromBytes(b).value < Pow10(10) && Padded(Dec(CounterFromBytes(b).value), 10) == b
  {
    if |b| == COUNTER_DIGITS && AllDigits(b) {
      NumberBelow(b);
      ParseThenPrint(b);
    }
  }
}
