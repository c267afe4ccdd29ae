/** Table keys of reverse forwards, `host:port` strings.

    `forwardKey` and `splitAddr` of internal/sshserver/forward.go sit on two functions of Go's net package and
    two of strconv, which are defined here with the behaviour their documentation gives them. */
module ForwardKeys {

  const MAX_INT := 0x7fff_ffff_ffff_ffff
  const MIN_INT := -0x8000_0000_0000_0000

  // ---- characters in strings

  function IndexOf(s: string, c: char): (i: int)
    ensures -1 <= i < |s|
    ensures i >= 0 ==> s[i] == c && forall k :: 0 <= k < i ==> s[k] != c
    ensures i < 0 <==> c !in s
  {
    if s == [] then -1
    else if s[0] == c then 0
    else
      var rest := IndexOf(s[1..], c);
      if rest < 0 then -1 else rest + 1
  }

  function LastIndexOf(s: string, c: char): (i: int)
    ensures -1 <= i < |s|
    ensures i >= 0 ==> s[i] == c && forall k :: i < k < |s| ==> s[k] != c
    ensures i < 0 <==> c !in s
  {
    if s == [] then -1
    else if s[|s| - 1] == c then |s| - 1
    else LastIndexOf(s[..|s| - 1], c)
  }

  /** Whether `c` occurs at index `from` or later. */
  predicate OccursFrom(s: string, from: nat, c: char) {
    exists k :: from <= k < |s| && s[k] == c
  }

  lemma LastIndexIs(s: string, c: char, i: nat)
    requires i < |s| && s[i] == c && forall k :: i < k < |s| ==> s[k] != c
    ensures LastIndexOf(s, c) == i
  {
  }

  lemma IndexIs(s: string, c: char, i: nat)
    requires i < |s| && s[i] == c && forall k :: 0 <= k < i ==> s[k] != c
    ensures IndexOf(s, c) == i
  {
  }

  predicate BracketFree(s: string) {
    '[' !in s && ']' !in s
  }

  // ---- decimal numbers

  function Digit(d: nat): (c: char)
    requires d < 10
    ensures '0' <= c <= '9'
  {
    '0' + d as char
  }

  function Itoa(n: nat): (s: string)
    ensures s != [] && AllDigits(s)
  {
    if n < 10 then [Digit(n)] else Itoa(n / 10) + [Digit(n % 10)]
  }

  predicate AllDigits(s: string) {
    forall i :: 0 <= i < |s| ==> '0' <= s[i] <= '9'
  }

  function DigitsValue(s: string): nat
    requires AllDigits(s)
  {
    if s == [] then 0 else 10 * DigitsValue(s[..|s| - 1]) + (s[|s| - 1] as nat - '0' as nat)
  }

  /** The number strconv.Atoi returns beside its error: zero for malformed text, a clamped value out of range. */
  function Atoi(s: string): int {
    var signed := s != [] && (s[0] == '-' || s[0] == '+');
    var digits := if signed then s[1..] else s;
    if digits == [] || !AllDigits(digits) then 0
    else
      var magnitude: int := DigitsValue(digits);
      var v := if signed && s[0] == '-' then -magnitude else magnitude;
      if v > MAX_INT then MAX_INT else if v < MIN_INT then MIN_INT else v
  }

  lemma {:induction false} DigitsOfItoa(n: nat)
    ensures DigitsValue(Itoa(n)) == n
  {
    if n < 10 {
      assert Itoa(n)[..0] == [];
    } else {
      DigitsOfItoa(n / 10);
      assert Itoa(n)[..|Itoa(n)| - 1] == Itoa(n / 10);
    }
  }

  function Pow10(i: nat): (p: nat)
    ensures p > 0
  {
    if i == 0 then 1 else 10 * Pow10(i - 1)
  }

  /** Decimal notation, digit by digit: the i-th from the right counts the i-th power of ten. */
  lemma {:induction false} ItoaIsDecimal(n: nat, i: nat)
    requires i < |Itoa(n)|
    ensures Itoa(n)[|Itoa(n)| - 1 - i] as int == '0' as int + n / Pow10(i) % 10
  {
    if i > 0 {
      ItoaIsDecimal(n / 10, i - 1);
      DivideTwice(n, Pow10(i - 1));
    }
  }

  lemma DivideTwice(n: nat, p: nat)
    requires p > 0
    ensures n / 10 / p == n / (10 * p)
  {
    var q, r := n / 10 / p, n / 10 % p;
    assert n / 10 == q * p + r;
    assert n == 10 * (q * p + r) + n % 10;
    assert n == (10 * p) * q + (10 * r + n % 10);
    QuotientIs(n, 10 * p, q, 10 * r + n % 10);
  }

  lemma QuotientIs(n: nat, d: nat, q: nat, r: nat)
    requires d > 0 && n == d * q + r && r < d
    ensures n / d == q
  {
    var k := n / d;
    assert n == d * k + n % d;
    assert d * (q - k) == d * q - d * k && d * (k - q) == d * k - d * q;
    if q > k {
      AtLeastOnce(d, q - k);
    } else if k > q {
      AtLeastOnce(d, k - q);
    }
  }

  lemma AtLeastOnce(d: nat, x: nat)
    requires x > 0
    ensures d * x >= d
  {
  }

  /** And it has no more digits than it needs. */
  lemma {:induction false} ItoaHasNoLeadingZero(n: nat)
    ensures |Itoa(n)| > 1 ==> Itoa(n)[0] != '0'
    ensures n > 0 ==> Itoa(n)[0] != '0'
  {
    if n >= 10 {
      ItoaHasNoLeadingZero(n / 10);
    }
  }

  lemma AtoiOfItoa(n: nat)
    requires n <= MAX_INT
    ensures Atoi(Itoa(n)) == n
  {
    DigitsOfItoa(n);
    assert '0' <= Itoa(n)[0] <= '9';
  }

  // ---- joining and splitting addresses

  function JoinHostPort(host: string, port: string): string {
    if ':' in host then "[" + host + "]:" + port else host + ":" + port
  }

  datatype Split = Split(host: string, port: string) | SplitError

  function SplitHostPort(addr: string): Split {
    var i := LastIndexOf(addr, ':');
    if i < 0 then SplitError
    else if addr[0] == '[' then
      var end := IndexOf(addr, ']');
      if end < 0 || end + 1 != i then SplitError
      else if OccursFrom(addr, 1, '[') || OccursFrom(addr, end + 1, ']') then SplitError
      else Split(addr[1..end], addr[i + 1..])
    else
      if ':' in addr[..i] || OccursFrom(addr, 0, '[') || OccursFrom(addr, 0, ']') then SplitError
      else Split(addr[..i], addr[i + 1..])
  }

  function ForwardKey(host: string, port: nat): string {
    JoinHostPort(host, Itoa(port))
  }

  function SplitAddr(addr: string): (string, int) {
    match SplitHostPort(addr)
    case SplitError => (addr, 0)
    case Split(host, port) => (host, Atoi(port))
  }

  // ---- what the two functions promise each other

  /** The part of a key before its last colon. */
  function HostPart(host: string): string {
    if ':' in host then "[" + host + "]" else host
  }

  lemma ColonChars(before: string, after: string, s: string)
    requires s == before + ":" + after && ':' !in after
    ensures s[|before|] == ':' && forall k :: |before| < k < |s| ==> s[k] != ':'
  {
    assert forall k :: |before| < k < |s| ==> s[k] == after[k - |before| - 1];
  }

  lemma LastColon(before: string, after: string)
    requires ':' !in after
    ensures LastIndexOf(before + ":" + after, ':') == |before|
  {
    var s := before + ":" + after;
    ColonChars(before, after, s);
    LastIndexIs(s, ':', |before|);
  }

  lemma KeyShape(host: string, port: nat)
    ensures ForwardKey(host, port) == HostPart(host) + ":" + Itoa(port)
    ensures LastIndexOf(ForwardKey(host, port), ':') == |HostPart(host)|
  {
    assert ForwardKey(host, port) == HostPart(host) + ":" + Itoa(port);
    assert ':' !in Itoa(port);
    LastColon(HostPart(host), Itoa(port));
  }

  lemma HostPartInjective(h1: string, h2: string)
    requires HostPart(h1) == HostPart(h2)
    ensures h1 == h2
  {
    if ':' in h1 && ':' in h2 {
      assert h1 == HostPart(h1)[1..|h1| + 1];
      assert h2 == HostPart(h2)[1..|h2| + 1];
    }
  }

  /** Distinct requests never share a key, brackets and colons in the host notwithstanding. */
  lemma ForwardKeyInjective(h1: string, p1: nat, h2: string, p2: nat)
    requires ForwardKey(h1, p1) == ForwardKey(h2, p2)
    ensures h1 == h2 && p1 == p2
  {
    KeyShape(h1, p1);
    KeyShape(h2, p2);
    SplitAtLength(HostPart(h1), Itoa(p1), HostPart(h2), Itoa(p2));
    HostPartInjective(h1, h2);
    DigitsOfItoa(p1);
    DigitsOfItoa(p2);
  }

  lemma SplitAtLength(a1: string, b1: string, a2: string, b2: string)
    requires a1 + ":" + b1 == a2 + ":" + b2 && |a1| == |a2|
    ensures a1 == a2 && b1 == b2
  {
    var s := a1 + ":" + b1;
    assert a1 == s[..|a1|] && a2 == s[..|a1|];
    assert b1 == s[|a1| + 1..] && b2 == s[|a1| + 1..];
  }

  lemma SplitOfBracketFree(host: string, digits: string)
    requires BracketFree(host) && AllDigits(digits)
    ensures SplitHostPort(JoinHostPort(host, digits)) == Split(host, digits)
  {
    var key := JoinHostPort(host, digits);
    assert key == HostPart(host) + ":" + digits;
    LastColon(HostPart(host), digits);
    if ':' in host {
      SplitBracketed(key, host, digits);
    } else {
      SplitPlain(key, host, digits);
    }
  }

  lemma SplitPlain(key: string, host: string, digits: string)
    requires BracketFree(host) && AllDigits(digits) && ':' !in host
    requires key == host + ":" + digits && LastIndexOf(key, ':') == |host|
    ensures SplitHostPort(key) == Split(host, digits)
  {
    assert key[..|host|] == host && key[|host| + 1..] == digits;
    assert forall k :: 0 <= k < |key| ==>
      key[k] == if k < |host| then host[k] else if k == |host| then ':' else digits[k - |host| - 1];
  }

  lemma SplitBracketed(key: string, host: string, digits: string)
    requires BracketFree(host) && AllDigits(digits)
    requires key == "[" + host + "]:" + digits && LastIndexOf(key, ':') == |host| + 2
    ensures SplitHostPort(key) == Split(host, digits)
  {
    BracketedChars(key, host, digits);
    IndexIs(key, ']', |host| + 1);
    assert key[1..|host| + 1] == host;
    assert key[|host| + 3..] == digits;
  }

  lemma BracketedChars(key: string, host: string, digits: string)
    requires BracketFree(host) && AllDigits(digits) && key == "[" + host + "]:" + digits
    ensures key[0] == '[' && key[|host| + 1] == ']' && key[|host| + 2] == ':'
    ensures forall k :: 1 <= k < |key| ==> key[k] != '['
    ensures forall k :: 1 <= k < |key| && k != |host| + 1 ==> key[k] != ']'
  {
    assert forall k :: 1 <= k <= |host| ==> key[k] == host[k - 1];
    assert forall k :: |host| + 3 <= k < |key| ==> key[k] == digits[k - |host| - 3];
  }

  /** Whatever the library splits off is free of brackets. */
  lemma SplitHostIsBracketFree(addr: string)
    ensures SplitHostPort(addr).Split? ==> BracketFree(SplitHostPort(addr).host)
  {
    if SplitHostPort(addr).Split? {
      var h := SplitHostPort(addr).host;
      if addr[0] == '[' {
        assert forall k :: 0 <= k < |h| ==> h[k] == addr[k + 1];
      } else {
        assert forall k :: 0 <= k < |h| ==> h[k] == addr[k];
      }
    }
  }

  /** An address without a port comes back whole. */
  lemma SplitAddrOfBareHost(addr: string)
    requires ':' !in addr
    ensures SplitAddr(addr) == (addr, 0)
  {
  }

  /** `splitAddr` recovers host and port of a key exactly when the host has no bracket in it. */
  lemma SplitAddrUndoesForwardKey(host: string, port: nat)
    requires port <= MAX_INT
    ensures SplitAddr(ForwardKey(host, port)) == (host, port) <==> BracketFree(host)
  {
    if BracketFree(host) {
      SplitOfBracketFree(host, Itoa(port));
      AtoiOfItoa(port);
    } else {
      SplitHostIsBracketFree(ForwardKey(host, port));
      KeyShape(host, port);
      assert |ForwardKey(host, port)| > |host|;
    }
  }
}
