/**
 * The host-match suffix that provisionDomains derives from the port of the
 * ingress address (core.js:60-67). The URL itself is parsed by a library;
 * the model starts from the port component the parser reports, a string.
 */
module Ports {

  predicate IsDigit(c: char)
  {
    '0' <= c <= '9'
  }

  predicate AllDigits(s: string)
  {
    forall i :: 0 <= i < |s| ==> IsDigit(s[i])
  }

  /** The number a string of decimal digits denotes; the empty string gives 0. */
  function DecimalValue(s: string): nat
    requires AllDigits(s)
  {
    if s == [] then 0
    else 10 * DecimalValue(s[..|s| - 1]) + (s[|s| - 1] as int - '0' as int)
  }

  /** `s` is some zeros followed by "80": the digit strings whose value is 80. */
  predicate ZeroPaddedEighty(s: string)
  {
    && |s| >= 2
    && s[|s| - 2..] == "80"
    && forall i :: 0 <= i < |s| - 2 ==> s[i] == '0'
  }

  /**
   * JavaScript's `port == 80` with a string on the left: the string is
   * converted to a number, which for decimal digits is their value and for
   * the empty string is 0. It holds of "80", "080", "0080", ... and of no
   * other digit string.
   */
  predicate LooselyEqualsEighty(port: string): (equal: bool)
    ensures equal <==> ZeroPaddedEighty(port)
  {
    if AllDigits(port) then
      DecimalEighty(port);
      DecimalValue(port) == 80
    else
      false
  }

  /** Port 80 is left out of the host match; any other port is appended after a colon. */
  function PortSuffix(port: string): (suffix: string)
    ensures suffix == if ZeroPaddedEighty(port) then "" else ":" + port
  {
    if LooselyEqualsEighty(port) then "" else ":" + port
  }

  /** A digit string has value 0 exactly when every digit is '0'. */
  lemma {:induction false} DecimalZero(s: string)
    requires AllDigits(s)
    ensures DecimalValue(s) == 0 <==> forall i :: 0 <= i < |s| ==> s[i] == '0'
  {
    if s != [] {
      var front := s[..|s| - 1];
      DecimalZero(front);
      assert forall i :: 0 <= i < |s| - 1 ==> s[i] == front[i];
    }
  }

  /** A digit string has value 8 exactly when it is some zeros followed by "8". */
  lemma DecimalEight(s: string)
    requires AllDigits(s)
    ensures DecimalValue(s) == 8 <==>
      |s| >= 1 && s[|s| - 1] == '8' && forall i :: 0 <= i < |s| - 1 ==> s[i] == '0'
  {
    if s != [] {
      var front := s[..|s| - 1];
      DecimalZero(front);
      assert forall i :: 0 <= i < |s| - 1 ==> s[i] == front[i];
    }
  }

  /** A digit string has value 80 exactly when it is some zeros followed by "80". */
  lemma DecimalEighty(s: string)
    requires AllDigits(s)
    ensures DecimalValue(s) == 80 <==> ZeroPaddedEighty(s)
  {
    if s != [] {
      var front := s[..|s| - 1];
      DecimalEight(front);
      assert forall i :: 0 <= i < |s| - 1 ==> s[i] == front[i];
      if |s| >= 2 {
        assert s[|s| - 2..] == [s[|s| - 2], s[|s| - 1]];
      }
    }
  }

  /**
   * A port as the WHATWG URL parser serializes it: empty when the URL names
   * no port or the scheme's default one, otherwise a decimal number without
   * leading zeros.
   */
  ghost predicate SerializedPort(port: string)
  {
    port == "" || port == "0" || (AllDigits(port) && port[0] != '0')
  }

  /**
   * On the ports the URL parser produces, the rule keeps the host bare only
   * for the literal port "80"; every other port, the empty one included,
   * is appended after a colon. In particular an address such as
   * `http://host:80`, whose port the parser reports as empty, gives ":".
   */
  lemma SerializedPortSuffix(port: string)
    requires SerializedPort(port)
    ensures PortSuffix(port) == if port == "80" then "" else ":" + port
  {
  }

  /**
   * The addresses `http://host:8080`, `http://host:80` (whose port the
   * parser reports as "") and one with the literal port string "80".
   */
  lemma PortSuffixExamples()
    ensures PortSuffix("8080") == ":8080"
    ensures PortSuffix("") == ":"
    ensures PortSuffix("80") == ""
  {
    assert !ZeroPaddedEighty("8080") by { assert "8080"[0] == '8'; }
    assert ZeroPaddedEighty("80") by { assert "80"[0..] == "80"; }
  }
}
