/** Splitting a block between repair pipelining and conventional repair
(project/src/glrc_hmbr.cpp, project/include/glrc_hmbr.h). Doubles are reals. */
module HmbrSplit {
  import opened Wrappers

  datatype Split = Split(shards: int, shardBytes: int, rpBegin: int, rpCount: int, convBegin: int, convCount: int,
                         rpFraction: real, rpContinuous: real, rpTime: real, convTime: real) {
    function RpOffset(): int { rpBegin * shardBytes }
    function RpSize(): int { rpCount * shardBytes }
    function ConvOffset(): int { convBegin * shardBytes }
    function ConvSize(): int { convCount * shardBytes }
  }

  // ------------------------------------------------------------------
  // The configured number.

  predicate IsDigit(c: char) { '0' <= c <= '9' }

  /** The value of a non-empty string of digits. */
  function Digits(s: string): (r: Result<nat>) {
    if s == "" then Err("empty")
    else
      var last := s[|s| - 1];
      if !IsDigit(last) then Err("not a digit")
      else if |s| == 1 then Ok((last - '0') as nat)
      else match Digits(s[..|s| - 1])
        case Ok(n) => Ok(10 * n + (last - '0') as nat)
        case Err(e) => Err(e)
  }

  const MAX_INT: int := 2147483647

  /** An optionally signed integer that fits 32 bits, after white space, up to the end. */
  function ParseInt(s: string): Result<int> {
    if s != "" && (s[0] == ' ' || '\t' <= s[0] <= '\r') then ParseInt(s[1..])
    else
      var negative := s != "" && s[0] == '-';
      match Digits(if s != "" && (s[0] == '-' || s[0] == '+') then s[1..] else s)
      case Ok(n) =>
        var size: int := n;
        var value := if negative then -size else size;
        if -MAX_INT - 1 <= value <= MAX_INT then Ok(value) else Err("out of range")
      case Err(e) => Err(e)
  }

  /** A number in decimal. */
  function Decimal(n: nat): (s: string)
    ensures s != "" && IsDigit(s[0])
  {
    var last := [('0' as int + n % 10) as char];
    if n < 10 then last else Decimal(n / 10) + last
  }

  function Print(v: int): string { if v < 0 then "-" + Decimal(-v) else Decimal(v) }

  lemma {:induction false} DigitsBack(n: nat)
    ensures Digits(Decimal(n)) == Ok(n)
  {
    var c := ('0' as int + n % 10) as char;
    if n < 10 {
      assert Decimal(n) == [c];
    } else {
      DigitsBack(n / 10);
      assert Decimal(n)[..|Decimal(n)| - 1] == Decimal(n / 10);
    }
  }

  lemma {:induction false} PlainBack(v: int)
    ensures ParseInt(Print(v)) == if -2147483648 <= v <= 2147483647 then Ok(v) else Err("out of range")
  {
    hide Decimal; hide Digits;
    DigitsBack(if v < 0 then -v else v);
    if v < 0 { assert Print(v)[1..] == Decimal(-v); }
  }

  lemma {:induction false} SpaceSkipped(s: string)
    ensures ParseInt(" " + s) == ParseInt(s)
  {
    hide Digits;
    assert (" " + s)[1..] == s;
  }

  function Spaces(n: nat): string { seq(n, _ => ' ') }

  /** A printed number is read back, white space before it or not, if it fits 32 bits. */
  lemma {:induction false} PrintedBack(v: int, spaces: nat)
    ensures ParseInt(Spaces(spaces) + Print(v)) ==
      if -2147483648 <= v <= 2147483647 then Ok(v) else Err("out of range")
  {
    hide ParseInt; hide Print;
    if spaces > 0 {
      assert Spaces(spaces) + Print(v) == " " + (Spaces(spaces - 1) + Print(v));
      SpaceSkipped(Spaces(spaces - 1) + Print(v));
      PrintedBack(v, spaces - 1);
    } else {
      assert Spaces(0) + Print(v) == Print(v);
      PlainBack(v);
    }
  }

  predicate Automatic(config: string) { config == "" || config == "auto" || config == "AUTO" }

  // ------------------------------------------------------------------
  // The balance point.

  /** Seconds per megabyte of the two lanes. */
  function RpCoef(failed: int, rpMbps: real): real
    requires rpMbps > 0.0
  {
    failed as real / rpMbps
  }

  function ConvCoef(helpers: int, failed: int, convMbps: real): real
    requires convMbps > 0.0
  {
    (helpers + failed - 1) as real / convMbps
  }

  lemma {:induction false} Quotient(a: real, b: real)
    requires b > 0.0
    ensures a / b * b == a && (a > 0.0 ==> a / b > 0.0) && (a >= 0.0 ==> a / b >= 0.0)
  {}

  lemma {:induction false} QuotientMono(a: real, a': real, b: real)
    requires b > 0.0 && a <= a'
    ensures a / b <= a' / b
  {}

  /** Where both lanes take the same time. */
  function Balance(rp: real, conv: real): (r: real)
    requires rp > 0.0 && conv > 0.0
    ensures 0.0 < r < 1.0 && r * rp == (1.0 - r) * conv
  {
    BalanceIs(rp, conv);
    conv / (rp + conv)
  }

  lemma {:induction false} BalanceIs(rp: real, conv: real)
    requires rp > 0.0 && conv > 0.0
    ensures var r := conv / (rp + conv); 0.0 < r < 1.0 && r * rp == (1.0 - r) * conv
  {
    var r := conv / (rp + conv);
    Quotient(conv, rp + conv);
    assert r * (rp + conv) == r * rp + r * conv;
    if r >= 1.0 { TimesMono(1.0, r, rp + conv); }
  }

  /** lround of a non-negative number. */
  function Round(x: real): int { (x + 0.5).Floor }

  function Clamp(n: int, lo: int, hi: int): int { if n < lo then lo else if n > hi then hi else n }

  /** The rounded, clamped balance point is within one shard of it. */
  lemma {:induction false} RoundedClose(shards: int, x: real)
    requires shards >= 2 && 0.0 < x < shards as real
    ensures var n := Clamp(Round(x), 1, shards - 1);
      && 1 <= n <= shards - 1 && n as real - 1.0 < x < n as real + 1.0
      && (if x < 0.5 then n == 1 else if x >= shards as real - 0.5 then n == shards - 1
          else n as real - 0.5 <= x < n as real + 0.5)
  {}

  /** The balance point in shards. */
  function Continuous(shards: int, rp: real, conv: real): real
    requires rp > 0.0 && conv > 0.0
  {
    Balance(rp, conv) * (shards as real)
  }

  /** The number of shards the pipeline lane gets. */
  function AutoCount(shards: int, rp: real, conv: real): int
    requires rp > 0.0 && conv > 0.0
  {
    Clamp(Round(Continuous(shards, rp, conv)), 1, shards - 1)
  }

  lemma {:induction false} BalanceMono(rp: real, conv: real, conv': real)
    requires rp > 0.0 && 0.0 < conv <= conv'
    ensures Balance(rp, conv) <= Balance(rp, conv')
  {
    TimesMono(conv, conv', rp);
    assert conv * (rp + conv') == conv * rp + conv * conv';
    assert conv' * (rp + conv) == conv' * rp + conv' * conv;
    CrossQuotient(conv, rp + conv, conv', rp + conv');
  }

  lemma {:induction false} CrossQuotient(a: real, b: real, c: real, d: real)
    requires b > 0.0 && d > 0.0 && a * d <= c * b
    ensures a / b <= c / d
  {
    var x, y := a / b, c / d;
    Quotient(a, b);
    Quotient(c, d);
    assert x * (b * d) == x * b * d;
    assert y * (b * d) == y * d * b;
    if y < x { TimesLess(y, x, b * d); }
  }

  lemma {:induction false} CoefsPositive(failed: int, rpMbps: real, convMbps: real, helpers: int)
    requires failed >= 1 && rpMbps > 0.0 && convMbps > 0.0 && 1 <= helpers
    ensures RpCoef(failed, rpMbps) > 0.0 && ConvCoef(helpers, failed, convMbps) > 0.0
  {
    Quotient(failed as real, rpMbps);
    Quotient((helpers + failed - 1) as real, convMbps);
  }

  lemma {:induction false} ConvMono(failed: int, convMbps: real, helpers: int, helpers': int)
    requires convMbps > 0.0 && helpers <= helpers'
    ensures ConvCoef(helpers, failed, convMbps) <= ConvCoef(helpers', failed, convMbps)
  {
    QuotientMono((helpers + failed - 1) as real, (helpers' + failed - 1) as real, convMbps);
  }

  /** More helpers never move shards from the pipeline to the conventional lane. */
  lemma {:induction false} CountMono(shards: int, failed: int, rpMbps: real, convMbps: real, helpers: int,
          helpers': int)
    requires shards >= 2 && failed >= 1 && rpMbps > 0.0 && convMbps > 0.0 && 1 <= helpers <= helpers'
    ensures var rp, conv, conv' :=
      RpCoef(failed, rpMbps), ConvCoef(helpers, failed, convMbps), ConvCoef(helpers', failed, convMbps);
      rp > 0.0 && 0.0 < conv && 0.0 < conv' && AutoCount(shards, rp, conv) <= AutoCount(shards, rp, conv')
  {
    hide Balance; hide RpCoef; hide ConvCoef; hide Round;
    CoefsPositive(failed, rpMbps, convMbps, helpers);
    CoefsPositive(failed, rpMbps, convMbps, helpers');
    ConvMono(failed, convMbps, helpers, helpers');
    var rp, conv, conv' :=
      RpCoef(failed, rpMbps), ConvCoef(helpers, failed, convMbps), ConvCoef(helpers', failed, convMbps);
    BalanceMono(rp, conv, conv');
    TimesMono(Balance(rp, conv), Balance(rp, conv'), shards as real);
    RoundMono(Continuous(shards, rp, conv), Continuous(shards, rp, conv'));
  }

  lemma {:induction false} TimesLess(a: real, b: real, c: real)
    requires a < b && c > 0.0
    ensures a * c < b * c
  {}

  lemma {:induction false} RoundMono(x: real, y: real)
    requires x <= y
    ensures Round(x) <= Round(y)
  {}

  lemma {:induction false} TimesMono(a: real, b: real, c: real)
    requires a <= b && c >= 0.0
    ensures a * c <= b * c
  {}

  // ------------------------------------------------------------------
  // The lanes' times.

  /** Seconds for `n` of `shards` shards of a block of mb megabytes at `coef` seconds
      per megabyte. */
  function LaneTime(n: real, shards: int, coef: real, mb: real): real
    requires shards >= 1
  {
    n / shards as real * coef * mb
  }

  /** The time of both lanes at the balance point. */
  function BestTime(rp: real, conv: real, mb: real): real
    requires rp > 0.0 && conv > 0.0
  {
    Balance(rp, conv) * rp * mb
  }

  /** No split, whole shards or not, has a faster slower lane. */
  lemma {:induction false} BestIsBest(rp: real, conv: real, mb: real, t: real)
    requires rp > 0.0 && conv > 0.0 && mb >= 0.0 && 0.0 <= t <= 1.0
    ensures t * rp * mb >= BestTime(rp, conv, mb) || (1.0 - t) * conv * mb >= BestTime(rp, conv, mb)
  {
    hide Balance;
    var r := Balance(rp, conv);
    if t >= r {
      TimesMono(r, t, rp);
      TimesMono(r * rp, t * rp, mb);
    } else {
      TimesMono(1.0 - r, 1.0 - t, conv);
      TimesMono((1.0 - r) * conv, (1.0 - t) * conv, mb);
    }
  }

  /** n shards, at most d more than x, take at most d shards longer. */
  lemma {:induction false} LaneSlack(x: real, n: real, shards: int, coef: real, mb: real)
    requires shards >= 1 && coef >= 0.0 && mb >= 0.0 && n <= x + 1.0
    ensures LaneTime(n, shards, coef, mb) <= LaneTime(x, shards, coef, mb) + LaneTime(1.0, shards, coef, mb)
  {
    var s := shards as real;
    QuotientMono(n, x + 1.0, s);
    SplitQuotient(x, 1.0, s);
    TimesMono(n / s, x / s + 1.0 / s, coef);
    TimesMono(n / s * coef, (x / s + 1.0 / s) * coef, mb);
  }

  lemma {:induction false} SplitQuotient(a: real, b: real, c: real)
    requires c > 0.0
    ensures (a + b) / c == a / c + b / c
  {}

  /** The automatic split's lanes exceed the continuous optimum by at most one shard. */
  lemma {:induction false} NearBest(shards: int, rp: real, conv: real, mb: real)
    requires shards >= 2 && rp > 0.0 && conv > 0.0 && mb >= 0.0
    ensures var n := AutoCount(shards, rp, conv);
      && LaneTime(n as real, shards, rp, mb) <= BestTime(rp, conv, mb) + LaneTime(1.0, shards, rp, mb)
      && LaneTime((shards - n) as real, shards, conv, mb) <= BestTime(rp, conv, mb) + LaneTime(1.0, shards, conv, mb)
  {
    hide Balance; hide LaneTime; hide Round; hide Continuous; hide BestTime; hide Clamp;
    var n, x := AutoCount(shards, rp, conv), Continuous(shards, rp, conv);
    InsideShards(shards, rp, conv);
    RoundedClose(shards, x);
    LaneSlack(x, n as real, shards, rp, mb);
    LaneSlack(shards as real - x, (shards - n) as real, shards, conv, mb);
    AtBalance(shards, rp, conv, mb);
  }

  lemma {:induction false} InsideShards(shards: int, rp: real, conv: real)
    requires rp > 0.0 && conv > 0.0 && shards >= 1
    ensures 0.0 < Continuous(shards, rp, conv) < shards as real
  {
    hide Balance;
    TimesLess(0.0, Balance(rp, conv), shards as real);
    TimesLess(Balance(rp, conv), 1.0, shards as real);
  }

  lemma {:induction false} AtBalance(shards: int, rp: real, conv: real, mb: real)
    requires shards >= 1 && rp > 0.0 && conv > 0.0
    ensures LaneTime(Continuous(shards, rp, conv), shards, rp, mb) == BestTime(rp, conv, mb)
    ensures LaneTime(shards as real - Continuous(shards, rp, conv), shards, conv, mb) == BestTime(rp, conv, mb)
  {
    hide Balance;
    var s, r := shards as real, Balance(rp, conv);
    CancelQuotient(r, s);
    CancelQuotient(1.0 - r, s);
    assert s - r * s == (1.0 - r) * s;
  }

  lemma {:induction false} CancelQuotient(a: real, b: real)
    requires b > 0.0
    ensures a * b / b == a
  {}

  // ------------------------------------------------------------------
  // The split.

  /** The lanes are non-empty and their byte ranges tile the block. */
  ghost predicate SplitOk(shards: int, block: int, out: Split) {
    && out.shards == shards && out.shardBytes >= 1 && out.shardBytes * shards == block
    && out.rpCount >= 1 && out.convCount >= 1 && out.rpCount + out.convCount == shards
    && out.RpOffset() == 0 && out.ConvOffset() == out.RpSize() && out.ConvOffset() + out.ConvSize() == block
  }

  lemma {:induction false} Below(a: int, b: int)
    requires a <= 0 && b >= 0
    ensures a * b <= 0
  {}

  lemma {:induction false} ShardBytes(block: int, shards: int, n: int)
    requires shards >= 2 && block >= 1 && block % shards == 0
    ensures var bytes := block / shards;
      bytes >= 1 && bytes * shards == block && n * bytes + (shards - n) * bytes == block
  {
    var bytes := block / shards;
    assert block == bytes * shards;
    if bytes <= 0 { Below(bytes, shards); }
    assert n * bytes + (shards - n) * bytes == shards * bytes;
  }

  /** The pipeline lane's shards, as configured or balanced, and the unrounded number. */
  method ChooseCount(shards: int, helpers: int, failed: int, rpMbps: real, convMbps: real, config: string)
    returns (res: Result<(int, real)>)
    requires shards >= 2 && helpers >= 1 && failed >= 1 && rpMbps > 0.0 && convMbps > 0.0
    ensures res.Ok? ==> 1 <= res.value.0 < shards
    ensures Automatic(config) ==>
      res.Ok? && CountIs(shards, helpers, failed, rpMbps, convMbps, res.value.0, res.value.1)
    ensures !Automatic(config) ==> (res.Ok? <==> ParseInt(config).Ok? && 1 <= ParseInt(config).value < shards)
    ensures !Automatic(config) && res.Ok? ==> ParseInt(config) == Ok(res.value.0)
  {
    hide Balance; hide Round; hide ParseInt; hide RpCoef; hide ConvCoef; hide Continuous;
    CoefsPositive(failed, rpMbps, convMbps, helpers);
    if Automatic(config) {
      var rp, conv := RpCoef(failed, rpMbps), ConvCoef(helpers, failed, convMbps);
      var continuous := Continuous(shards, rp, conv);
      return Ok((Clamp(Round(continuous), 1, shards - 1), continuous));
    }
    match ParseInt(config) {
      case Err(_) => return Err("GlrcHmbrP must be auto or an integer");
      case Ok(n) =>
        if n < 1 || n >= shards { return Err("fixed GlrcHmbrP must be in [1, GlrcShardCount-1]"); }
        return Ok((n, n as real));
    }
  }

  /** The automatic count and the balance point it is rounded from. */
  ghost predicate CountIs(shards: int, helpers: int, failed: int, rpMbps: real, convMbps: real, count: int,
          continuous: real)
    requires helpers >= 1 && failed >= 1 && rpMbps > 0.0 && convMbps > 0.0
  {
    CoefsPositive(failed, rpMbps, convMbps, helpers);
    var rp, conv := RpCoef(failed, rpMbps), ConvCoef(helpers, failed, convMbps);
    count == AutoCount(shards, rp, conv) && continuous == Continuous(shards, rp, conv)
  }

  /** The split for a chosen count. */
  function Finish(shards: int, block: int, helpers: int, failed: int, rpMbps: real, convMbps: real, count: int,
          continuous: real): Split
    requires shards >= 1 && rpMbps > 0.0 && convMbps > 0.0
  {
    var fraction, mb := count as real / shards as real, block as real / (1024.0 * 1024.0);
    Split(shards, block / shards, 0, count, count, shards - count, fraction, continuous,
          fraction * failed as real * mb / rpMbps, (1.0 - fraction) * (helpers + failed - 1) as real / convMbps * mb)
  }

  lemma {:induction false} FinishOk(shards: int, block: int, helpers: int, failed: int, rpMbps: real, convMbps: real,
          count: int, continuous: real)
    requires shards >= 2 && block >= 1 && block % shards == 0 && rpMbps > 0.0 && convMbps > 0.0 && 1 <= count < shards
    ensures var out := Finish(shards, block, helpers, failed, rpMbps, convMbps, count, continuous);
      && SplitOk(shards, block, out) && TimesOk(shards, block, helpers, failed, rpMbps, convMbps, out)
      && out.rpCount == count && out.rpContinuous == continuous
  {
    hide LaneTime; hide RpCoef; hide ConvCoef;
    ShardBytes(block, shards, count);
    TimesIs(count, shards, helpers, failed, rpMbps, convMbps, block as real / 1048576.0);
  }

  /** glrc_hmbr_build_shard_split. */
  method BuildShardSplit(shards: int, block: int, helpers: int, failed: int, rpMbps: real, convMbps: real,
          config: string)
    returns (res: Result<Split>)
    ensures res.Ok? <==> Accepted(shards, block, helpers, failed, rpMbps, convMbps, config)
    ensures res.Ok? ==> SplitOk(shards, block, res.value)
    ensures res.Ok? ==> TimesOk(shards, block, helpers, failed, rpMbps, convMbps, res.value)
    ensures res.Ok? && Automatic(config) ==>
      CountIs(shards, helpers, failed, rpMbps, convMbps, res.value.rpCount, res.value.rpContinuous)
    ensures res.Ok? && !Automatic(config) ==> ParseInt(config) == Ok(res.value.rpCount)
    ensures res.Ok? ==> LanesIn(helpers, failed, rpMbps, convMbps, res.value)
    ensures res.Ok? && Automatic(config) ==> Balanced(shards, helpers, failed, rpMbps, convMbps, res.value)
  {
    hide ParseInt; hide SplitOk; hide TimesOk; hide CountIs; hide Finish; hide LanesIn; hide Balanced; hide Automatic;
    if shards < 2 { return Err("HMBR-LRC requires GlrcShardCount >= 2"); }
    if block < 1 || block % shards != 0 { return Err("HMBR-LRC requires BlockSize divisible by GlrcShardCount"); }
    if helpers < 1 || failed < 1 || rpMbps <= 0.0 || convMbps <= 0.0 {
      return Err("HMBR-LRC requires positive helper, failure, and bandwidth values");
    }
    var choice := ChooseCount(shards, helpers, failed, rpMbps, convMbps, config);
    match choice {
      case Err(e) => return Err(e);
      case Ok(pair) =>
        FinishOk(shards, block, helpers, failed, rpMbps, convMbps, pair.0, pair.1);
        ghost var out := Finish(shards, block, helpers, failed, rpMbps, convMbps, pair.0, pair.1);
        LanesAre(shards, block, helpers, failed, rpMbps, convMbps, out);
        if Automatic(config) { BalancedAre(shards, helpers, failed, rpMbps, convMbps, out); }
        return Ok(Finish(shards, block, helpers, failed, rpMbps, convMbps, pair.0, pair.1));
    }
  }

  /** Both estimates are the lanes' times for their whole shards. */
  ghost predicate TimesOk(shards: int, block: int, helpers: int, failed: int, rpMbps: real, convMbps: real, out: Split)
    requires shards >= 1 && rpMbps > 0.0 && convMbps > 0.0
  {
    var mb := block as real / 1048576.0;
    && out.rpTime == LaneTime(out.rpCount as real, shards, RpCoef(failed, rpMbps), mb)
    && out.convTime == LaneTime(out.convCount as real, shards, ConvCoef(helpers, failed, convMbps), mb)
  }

  /** The pipeline sends its lane's bytes once per failed block, conventional repair sends
      its own once per helper and once more per further failed block. */
  ghost predicate LanesIn(helpers: int, failed: int, rpMbps: real, convMbps: real, out: Split) {
    && out.rpTime * rpMbps * 1048576.0 == out.RpSize() as real * failed as real
    && out.convTime * convMbps * 1048576.0 == out.ConvSize() as real * (helpers + failed - 1) as real
  }

  lemma {:induction false} LaneIs(n: int, shards: int, bytes: int, block: int, c: real, mbps: real)
    requires shards >= 1 && mbps > 0.0 && bytes * shards == block
    ensures LaneTime(n as real, shards, c / mbps, block as real / 1048576.0) * mbps * 1048576.0
      == (n * bytes) as real * c
  {
    var s, q := shards as real, n as real / shards as real;
    Quotient(n as real, s);
    Quotient(c, mbps);
    Quotient(block as real, 1048576.0);
    assert block as real == bytes as real * s;
    assert (n * bytes) as real == n as real * bytes as real;
    var m := block as real / 1048576.0;
    LaneProduct(q, c / mbps, m, mbps, 1048576.0);
    assert q * (bytes as real * s) == q * s * bytes as real;
  }

  lemma {:induction false} LaneProduct(q: real, c: real, m: real, mbps: real, mega: real)
    ensures q * c * m * mbps * mega == q * (m * mega) * (c * mbps)
  {
    assert q * c * m * mbps * mega == q * m * mega * (c * mbps);
  }

  lemma {:induction false} LanesAre(shards: int, block: int, helpers: int, failed: int, rpMbps: real, convMbps: real,
          out: Split)
    requires shards >= 1 && rpMbps > 0.0 && convMbps > 0.0
    requires SplitOk(shards, block, out) && TimesOk(shards, block, helpers, failed, rpMbps, convMbps, out)
    ensures LanesIn(helpers, failed, rpMbps, convMbps, out)
  {
    hide LaneTime;
    LaneIs(out.rpCount, shards, out.shardBytes, block, failed as real, rpMbps);
    LaneIs(out.convCount, shards, out.shardBytes, block, (helpers + failed - 1) as real, convMbps);
  }

  /** At the continuous count both lanes take the same time, and the count is the nearest
      one that leaves neither lane empty. */
  ghost predicate Balanced(shards: int, helpers: int, failed: int, rpMbps: real, convMbps: real, out: Split) {
    var x, n := out.rpContinuous, out.rpCount;
    && x * failed as real * convMbps == (shards as real - x) * (helpers + failed - 1) as real * rpMbps
    && (if x < 0.5 then n == 1 else if x >= shards as real - 0.5 then n == shards - 1
        else n as real - 0.5 <= x < n as real + 0.5)
  }

  lemma {:induction false} BalancedAre(shards: int, helpers: int, failed: int, rpMbps: real, convMbps: real,
          out: Split)
    requires shards >= 2 && helpers >= 1 && failed >= 1 && rpMbps > 0.0 && convMbps > 0.0
    requires CountIs(shards, helpers, failed, rpMbps, convMbps, out.rpCount, out.rpContinuous)
    ensures Balanced(shards, helpers, failed, rpMbps, convMbps, out)
  {
    hide Balance; hide Round; hide Clamp;
    CoefsPositive(failed, rpMbps, convMbps, helpers);
    var rp, conv := RpCoef(failed, rpMbps), ConvCoef(helpers, failed, convMbps);
    InsideShards(shards, rp, conv);
    RoundedClose(shards, out.rpContinuous);
    Quotient(failed as real, rpMbps);
    Quotient((helpers + failed - 1) as real, convMbps);
    hide RpCoef; hide ConvCoef;
    BalancePoint(Balance(rp, conv), shards as real, rp, conv, rpMbps, convMbps);
  }

  lemma {:induction false} BalancePoint(r: real, s: real, rp: real, conv: real, a: real, b: real)
    requires r * rp == (1.0 - r) * conv
    ensures r * s * (rp * a) * b == (s - r * s) * (conv * b) * a
  {
    assert r * s * (rp * a) * b == r * rp * (s * a * b);
    assert (s - r * s) * (conv * b) * a == (1.0 - r) * conv * (s * a * b);
  }

  /** The inputs the split is built for. */
  predicate Accepted(shards: int, block: int, helpers: int, failed: int, rpMbps: real, convMbps: real, config: string) {
    && shards >= 2 && block >= 1 && block % shards == 0 && helpers >= 1 && failed >= 1 && rpMbps > 0.0 && convMbps > 0.0
    && (Automatic(config) || (ParseInt(config).Ok? && 1 <= ParseInt(config).value < shards))
  }

  lemma {:induction false} TimesIs(n: int, shards: int, helpers: int, failed: int, rpMbps: real, convMbps: real,
          mb: real)
    requires shards >= 1 && rpMbps > 0.0 && convMbps > 0.0
    ensures n as real / shards as real * failed as real * mb / rpMbps ==
      LaneTime(n as real, shards, RpCoef(failed, rpMbps), mb)
    ensures (1.0 - n as real / shards as real) * (helpers + failed - 1) as real / convMbps * mb
      == LaneTime((shards - n) as real, shards, ConvCoef(helpers, failed, convMbps), mb)
  {
    var q, s := n as real / shards as real, shards as real;
    MoveQuotient(q, failed as real, mb, rpMbps);
    SplitQuotient(s - n as real, n as real, s);
    CancelQuotient(1.0, s);
    AssocQuotient(1.0 - q, (helpers + failed - 1) as real, convMbps);
  }

  lemma {:induction false} MoveQuotient(a: real, b: real, c: real, d: real)
    requires d > 0.0
    ensures a * b * c / d == a * (b / d) * c
  {
    Quotient(b, d);
    CancelQuotient(a * (b / d) * c, d);
    assert a * (b / d) * c * d == a * (b / d * d) * c;
  }

  lemma {:induction false} AssocQuotient(a: real, b: real, d: real)
    requires d > 0.0
    ensures a * b / d == a * (b / d)
  {
    MoveQuotient(a, b, 1.0, d);
  }
}
