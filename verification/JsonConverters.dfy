/** IntOrStringConverter of JsonConverters.cs: numbers and strings both become strings. */
module JsonConverters {
  import opened Basics
  import Decimal

  /** A number as it is written, a string, or the text of any other value. */
  datatype Token = Number(text: string) | String(value: string) | Other(json: string)

  predicate IsInt64(n: int) {
    -0x8000_0000_0000_0000 <= n < 0x8000_0000_0000_0000
  }

  function TryGetInt64(text: string): Option<int> {
    match Decimal.Parse(text)
    case Some(n) => if IsInt64(n) then Some(n) else None
    case None => None
  }

  /** `throughDouble` prints the nearest double of a number that is no 64-bit integer. */
  function Read(token: Token, throughDouble: string -> string): string {
    match token
    case Number(text) =>
      var n := TryGetInt64(text);
      if n.Some? then Decimal.Print(n.value) else throughDouble(text)
    case String(value) => value
    case Other(json) => json
  }

  function Write(value: string): Token {
    String(value)
  }

  /**
   * Every 64-bit integer is read as its own decimal text, so different integers stay different;
   * and what has been read once is unchanged by writing and reading again.
   */
  lemma {:induction false} IntegersKeepTheirText(n: int, m: int, throughDouble: string -> string)
    requires IsInt64(n) && IsInt64(m)
    ensures Read(Number(Decimal.Print(n)), throughDouble) == Decimal.Print(n)
    ensures Decimal.Print(n) == Decimal.Print(m) ==> n == m
    ensures Read(Write(Decimal.Print(n)), throughDouble) == Read(Number(Decimal.Print(n)), throughDouble)
  {
    Decimal.ParsePrint(n);
    Decimal.ParsePrint(m);
  }

  /** What becomes of any value: the 64-bit integers keep their text, other numbers go through a double. */
  lemma {:induction false} ReadIs(n: int, text: string, throughDouble: string -> string)
    ensures Read(Number(Decimal.Print(n)), throughDouble) ==
            if -9_223_372_036_854_775_808 <= n <= 9_223_372_036_854_775_807 then Decimal.Print(n)
            else throughDouble(Decimal.Print(n))
    ensures Read(String(text), throughDouble) == text && Read(Other(text), throughDouble) == text
    ensures Write(text) == String(text)
  {
    Decimal.ParsePrint(n);
  }
}
