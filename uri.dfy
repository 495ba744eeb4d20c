/** The connection string `mongodb://host:port/dbName` the server connects to. */
module Uri {
  import opened Entities

  predicate IsDigit(ch: char) {
    '0' <= ch <= '9'
  }

  function DigitChar(d: nat): (ch: char)
    requires d < 10
    ensures IsDigit(ch) && ch as int - '0' as int == d
  {
    "0123456789"[d]
  }

  /** The decimal digits of `n`, as a template literal renders a non-negative integer. */
  function Decimal(n: nat): (s: string)
    ensures |s| >= 1
    ensures forall i :: 0 <= i < |s| ==> IsDigit(s[i])
    ensures |s| > 1 ==> s[0] != '0'
  {
    if n < 10 then [DigitChar(n)] else Decimal(n / 10) + [DigitChar(n % 10)]
  }

  /** The value of a string of decimal digits. */
  function DecimalValue(s: string): nat
    requires forall i :: 0 <= i < |s| ==> IsDigit(s[i])
  {
    if s == [] then 0
    else
      assert IsDigit(s[|s| - 1]);
      DecimalValue(s[..|s| - 1]) * 10 + (s[|s| - 1] as int - '0' as int)
  }

  /** Reading the rendered digits back gives the number: the port in the URI is the configured port. */
  lemma {:induction false} DecimalRoundTrip(n: nat)
    ensures DecimalValue(Decimal(n)) == n
  {
    if n >= 10 {
      DecimalRoundTrip(n / 10);
      var s := Decimal(n);
      assert s[..|s| - 1] == Decimal(n / 10);
    }
  }

  /** An integer as a template literal renders it. */
  function NumberText(x: int): string {
    if x < 0 then "-" + Decimal(-x) else Decimal(x)
  }

  /** The URI `addConnection` hands to the driver for database `dbName`. */
  function ConnectionUri(c: Config, dbName: string): string {
    "mongodb://" + c.host + ":" + NumberText(c.port) + "/" + dbName
  }
}
