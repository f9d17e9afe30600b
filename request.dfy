/**
 * What a handler receives from the router: the named path segments of the
 * request (gorilla/mux's `Vars`), and the decimal parse the update handler
 * applies to the `id` segment.
 */
module Request {

  /** The path parameters matched by the route, keyed by segment name. */
  type Vars = map<string, string>

  /** The parameters of a route with no `{id}` segment, such as `/pokemon/add/`. */
  const NoVars: Vars := map[]

  /** The parameters of a route `/…/{id}` matched with segment value `id`. */
  function IdVars(id: string): (vars: Vars)
    ensures "id" in vars && vars["id"] == id
  {
    map["id" := id]
  }

  /**
   * Indexing a Go map: a missing key yields the zero value, the empty string.
   */
  function Param(vars: Vars, name: string): (v: string)
    ensures name in vars ==> v == vars[name]
    ensures name !in vars ==> v == ""
  {
    if name in vars then vars[name] else ""
  }

  /** The largest value of Go's 64-bit `int`. */
  const MaxInt: nat := 0x7fff_ffff_ffff_ffff

  predicate IsDigit(c: char) {
    '0' <= c <= '9'
  }

  /** Strings the route pattern `[0-9]+` accepts. */
  predicate IsDigits(s: string) {
    |s| > 0 && forall j :: 0 <= j < |s| ==> IsDigit(s[j])
  }

  /** The decimal value of a digit string, without any width limit. */
  function DigitsValue(s: string): nat
    requires IsDigits(s)
  {
    if |s| == 1 then (s[0] - '0') as nat
    else DigitsValue(s[..|s| - 1]) * 10 + (s[|s| - 1] - '0') as nat
  }

  /** The canonical decimal spelling of `n`, without leading zeros. */
  function Decimal(n: nat): (s: string)
    ensures IsDigits(s)
    ensures |s| > 1 ==> s[0] != '0'
  {
    if n < 10 then ['0' + n as char]
    else Decimal(n / 10) + ['0' + (n % 10) as char]
  }

  /** Parsing the canonical spelling of `n` gives back `n`. */
  lemma {:induction false} DigitsValueOfDecimal(n: nat)
    ensures DigitsValue(Decimal(n)) == n
  {
    if n >= 10 {
      var s := Decimal(n);
      assert s[..|s| - 1] == Decimal(n / 10);
      DigitsValueOfDecimal(n / 10);
    }
  }

  /** Different numbers have different canonical spellings. */
  lemma DecimalInjective(m: nat, n: nat)
    requires m != n
    ensures Decimal(m) != Decimal(n)
  {
    DigitsValueOfDecimal(m);
    DigitsValueOfDecimal(n);
  }

  /**
   * `strconv.Atoi` on a string the route accepted: its decimal value, or, when
   * that does not fit a 64-bit `int`, the range error's value `MaxInt`.
   */
  function Atoi(s: string): (i: nat)
    requires IsDigits(s)
    ensures i <= MaxInt
    ensures DigitsValue(s) <= MaxInt ==> i == DigitsValue(s)
    ensures DigitsValue(s) > MaxInt ==> i == MaxInt
  {
    var v := DigitsValue(s);
    if v <= MaxInt then v else MaxInt
  }

  /** The route's spelling of a position parses back to that position. */
  lemma AtoiOfDecimal(n: nat)
    requires n <= MaxInt
    ensures Atoi(Decimal(n)) == n
  {
    DigitsValueOfDecimal(n);
  }
}
