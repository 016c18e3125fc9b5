// Identifiers of accepted server connections, and why no two are equal.

module ConnectionIds {
  // What the transport says about the peer: an address tuple whose host and port
  // print as these strings, or something else.
  datatype Peer = Address(host: string, port: string) | Unknown

  function Digit(d: nat): char
    requires d < 10
  {
    "0123456789"[d]
  }

  function Decimal(n: nat): (s: string)
    ensures |s| > 0
  {
    if n < 10 then [Digit(n)] else Decimal(n / 10) + [Digit(n % 10)]
  }

  // tcp_server_connection_id
  function ConnectionId(peer: Peer, sequence: nat): string {
    match peer
    case Address(host, port) => "tcp/server/" + host + "/" + port + "/connection/" + Decimal(sequence)
    case Unknown => "tcp/server/unknown/unknown/connection/" + Decimal(sequence)
  }

  lemma DigitIsNoSlash(d: nat)
    requires d < 10
    ensures Digit(d) != '/'
  {
  }

  lemma {:induction false} DecimalHasNoSlash(n: nat)
    ensures '/' !in Decimal(n)
  {
    DigitIsNoSlash(n % 10);
    if n >= 10 {
      DecimalHasNoSlash(n / 10);
    }
  }

  lemma DigitInjective(a: nat, b: nat)
    requires a < 10 && b < 10 && Digit(a) == Digit(b)
    ensures a == b
  {
  }

  lemma {:induction false} DecimalInjective(m: nat, n: nat)
    requires Decimal(m) == Decimal(n)
    ensures m == n
  {
    hide Digit;
    var a, b := Decimal(m), Decimal(n);
    assert a[|a| - 1] == Digit(m % 10) && b[|b| - 1] == Digit(n % 10);
    DigitInjective(m % 10, n % 10);
    if m >= 10 && n >= 10 {
      assert Decimal(m / 10) == a[..|a| - 1] && Decimal(n / 10) == b[..|b| - 1];
      DecimalInjective(m / 10, n / 10);
    }
  }

  lemma SlashIsLast(x: string, a: string)
    requires '/' !in a
    ensures var s := x + "/" + a; s[|x|] == '/' && forall i :: |x| < i < |s| ==> s[i] != '/'
  {
    var s := x + "/" + a;
    forall i | |x| < i < |s|
      ensures s[i] != '/'
    {
      assert s[i] == a[i - |x| - 1];
    }
  }

  // What follows the last slash is determined by the whole string.
  lemma AfterLastSlash(x: string, a: string, y: string, b: string)
    requires x + "/" + a == y + "/" + b && '/' !in a && '/' !in b
    ensures a == b
  {
    SlashIsLast(x, a);
    SlashIsLast(y, b);
    assert |x| == |y|;
    assert a == (x + "/" + a)[|x| + 1..] && b == (y + "/" + b)[|y| + 1..];
  }

  function Prefix(peer: Peer): string {
    match peer
    case Address(host, port) => "tcp/server/" + host + "/" + port + "/connection"
    case Unknown => "tcp/server/unknown/unknown/connection"
  }

  lemma IdIsPrefixAndNumber(peer: Peer, sequence: nat)
    ensures ConnectionId(peer, sequence) == Prefix(peer) + "/" + Decimal(sequence)
  {
    hide Decimal;
    if peer.Address? {
      assert "/connection/" == "/connection" + "/";
    } else {
      assert "tcp/server/unknown/unknown/connection/" == "tcp/server/unknown/unknown/connection" + "/";
    }
  }

  // Whatever hosts and ports print as, equal identifiers mean equal sequence
  // numbers.
  lemma IdsDistinct(p: Peer, m: nat, q: Peer, n: nat)
    requires ConnectionId(p, m) == ConnectionId(q, n)
    ensures m == n
  {
    hide Decimal, ConnectionId, Prefix;
    IdIsPrefixAndNumber(p, m);
    IdIsPrefixAndNumber(q, n);
    DecimalHasNoSlash(m);
    DecimalHasNoSlash(n);
    AfterLastSlash(Prefix(p), Decimal(m), Prefix(q), Decimal(n));
    DecimalInjective(m, n);
  }
}
