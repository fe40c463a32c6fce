/** The names `TcpServer` gives its connections: the server's name followed by the decimal
    connection index. */
module Naming {

  function Digit(d: nat): (c: char)
    requires d < 10
    ensures c as int == '0' as int + d
  {
    ('0' as int + d) as char
  }

  /** `std::to_string` of a non-negative index. */
  function Decimal(n: nat): (s: string)
    ensures |s| > 0
  {
    if n < 10 then [Digit(n)] else Decimal(n / 10) + [Digit(n % 10)]
  }

  predicate IsDigit(c: char) {
    '0' <= c <= '9'
  }

  /** The number a decimal text stands for, read from the left. */
  function Value(s: string): int {
    if s == "" then 0 else Value(s[..|s| - 1]) * 10 + (s[|s| - 1] as int - '0' as int)
  }

  /** It is the usual text: digits that stand for the number, without a leading zero. */
  lemma {:induction false} DecimalIsText(n: nat)
    ensures Value(Decimal(n)) == n
    ensures forall i :: 0 <= i < |Decimal(n)| ==> IsDigit(Decimal(n)[i])
    ensures Decimal(n)[0] == '0' <==> n == 0
  {
    if n < 10 {
      assert Decimal(n)[..0] == "" && Value("") == 0;
    } else {
      DecimalIsText(n / 10);
      assert Decimal(n)[..|Decimal(n)| - 1] == Decimal(n / 10);
    }
  }

  lemma {:induction false} DecimalInjective(m: nat, n: nat)
    requires Decimal(m) == Decimal(n)
    ensures m == n
  {
    var s := Decimal(m);
    assert s[|s| - 1] == Digit(m % 10) == Digit(n % 10);
    if m >= 10 && n >= 10 {
      assert Decimal(m / 10) == s[..|s| - 1] == Decimal(n / 10);
      DecimalInjective(m / 10, n / 10);
    }
  }

  function ConnName(server: string, index: nat): string {
    server + Decimal(index)
  }

  /** Connections of one server never share a name. */
  lemma NamesDistinct(server: string, i: nat, j: nat)
    requires ConnName(server, i) == ConnName(server, j)
    ensures i == j
  {
    assert Decimal(i) == ConnName(server, i)[|server|..] == ConnName(server, j)[|server|..];
    DecimalInjective(i, j);
  }

  /** `connections_` after a connection was entered, and after one was erased. */
  function Entered(registry: map<string, nat>, server: string, c: nat): map<string, nat> {
    registry[ConnName(server, c) := c]
  }

  function Erased(registry: map<string, nat>, server: string, c: nat): map<string, nat> {
    registry - {ConnName(server, c)}
  }
}
