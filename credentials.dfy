/**
 * Synthetic proxy credentials (`_generate_proxy_data`). Randomness is an
 * entropy stream passed in by the caller; `random.randint(lo, hi)` reads one
 * raw value from it and folds it into [lo, hi].
 */
module Credentials {
  import opened Decimal

  /** An unbounded stream of raw random values. */
  type Entropy = nat -> int

  /** `random.randint(lo, hi)` applied to the raw value `raw`. */
  function RandInt(lo: int, hi: int, raw: int): (r: int)
    requires lo <= hi
    ensures lo <= r <= hi
  {
    lo + raw % (hi - lo + 1)
  }

  /** One proxy record: dotted-quad address, port, login and password. */
  datatype Credential = Credential(ip: string, port: int, login: string, password: string)

  /** Each record reads this many values from the stream: four octets, port, login, password. */
  const DrawsPerCredential: nat := 7

  /** An address is four dot-separated decimal octets, each in [0, 255]. */
  predicate ValidIp(ip: string) {
    var parts := SplitDots(ip);
    |parts| == 4 && forall i :: 0 <= i < |parts| ==> IsDecimalIn(parts[i], 0, 255)
  }

  /** The shape every generated record has. */
  predicate ValidCredential(c: Credential) {
    && ValidIp(c.ip)
    && 1000 <= c.port <= 9999
    && HasNumberedSuffix(c.login, "user", 1000, 9999)
    && HasNumberedSuffix(c.password, "pass", 10000, 99999)
  }

  function Octet(rand: Entropy, k: nat): string {
    Render(RandInt(0, 255, rand(k)))
  }

  /** The four octet texts drawn from values k .. k+3. */
  function Octets(rand: Entropy, k: nat): (parts: seq<string>)
    ensures |parts| == 4
  {
    [Octet(rand, k), Octet(rand, k + 1), Octet(rand, k + 2), Octet(rand, k + 3)]
  }

  /** Joining the octets with dots and splitting again gives the octets back, each a decimal in [0, 255]. */
  lemma OctetsSplit(rand: Entropy, k: nat)
    ensures SplitDots(JoinDots(Octets(rand, k))) == Octets(rand, k)
    ensures forall i :: 0 <= i < 4 ==> IsDecimalIn(Octets(rand, k)[i], 0, 255)
  {
    var parts := Octets(rand, k);
    forall i | 0 <= i < 4
      ensures '.' !in parts[i] && IsDecimalIn(parts[i], 0, 255)
    {
      ValueOfRender(RandInt(0, 255, rand(k + i)));
      DigitsHaveNoDot(parts[i]);
    }
    SplitJoin(parts);
  }

  /** `".".join(str(random.randint(0, 255)) for _ in range(4))` over draws k .. k+3. */
  function DottedQuad(rand: Entropy, k: nat): (ip: string)
    ensures ValidIp(ip)
  {
    OctetsSplit(rand, k);
    JoinDots(Octets(rand, k))
  }

  /** Record number `index` of a batch, built from draws 7*index .. 7*index+6 in the order Python evaluates them. */
  function MakeCredential(rand: Entropy, index: nat): (c: Credential)
    ensures ValidCredential(c)
  {
    var k := DrawsPerCredential * index;
    var loginNumber := RandInt(1000, 9999, rand(k + 5));
    var passwordNumber := RandInt(10000, 99999, rand(k + 6));
    RenderedSuffix("user", loginNumber, 1000, 9999);
    RenderedSuffix("pass", passwordNumber, 10000, 99999);
    Credential(
      DottedQuad(rand, k),
      RandInt(1000, 9999, rand(k + 4)),
      "user" + Render(loginNumber),
      "pass" + Render(passwordNumber))
  }

  /** `_generate_proxy_data(quantity)`: one record per step of `range(quantity)`. */
  function GenerateProxyData(quantity: int, rand: Entropy): (r: seq<Credential>)
    ensures |r| == if quantity > 0 then quantity else 0
    ensures forall i :: 0 <= i < |r| ==> ValidCredential(r[i])
  {
    seq(if quantity > 0 then quantity else 0, (i: nat) => MakeCredential(rand, i))
  }

  /**
   * Confirming twice draws fresh values, so two entropy streams that differ
   * in the first octet yield different batches: re-confirmation replaces credentials.
   */
  lemma RegenerationDiffers(quantity: int, rand1: Entropy, rand2: Entropy)
    requires quantity > 0
    requires rand1(0) % 256 != rand2(0) % 256
    ensures GenerateProxyData(quantity, rand1) != GenerateProxyData(quantity, rand2)
  {
    var ip1 := GenerateProxyData(quantity, rand1)[0].ip;
    var ip2 := GenerateProxyData(quantity, rand2)[0].ip;
    assert ip1 == JoinDots(Octets(rand1, 0));
    assert ip2 == JoinDots(Octets(rand2, 0));
    OctetsSplit(rand1, 0);
    OctetsSplit(rand2, 0);
    ValueOfRender(RandInt(0, 255, rand1(0)));
    ValueOfRender(RandInt(0, 255, rand2(0)));
    assert SplitDots(ip1)[0] != SplitDots(ip2)[0];
  }
}
