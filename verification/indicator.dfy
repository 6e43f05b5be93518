/**
 * The "is typing" line of the page: the first three names of the typing
 * list, how many more there are, and a French verb agreeing with the count.
 */
module Indicator {

  const Separator := ", "
  const Plural := "écrivent..."
  const Singular := "écrit..."

  predicate StartsWith(s: string, prefix: string)
  {
    |prefix| <= |s| && s[..|prefix|] == prefix
  }

  predicate EndsWith(s: string, suffix: string)
  {
    |suffix| <= |s| && s[|s| - |suffix|..] == suffix
  }

  function Min(a: nat, b: nat): nat
  {
    if a <= b then a else b
  }

  /** `Array.prototype.join`: the names with `sep` between consecutive ones. */
  function JoinWith(names: seq<string>, sep: string): string
  {
    if |names| == 0 then ""
    else if |names| == 1 then names[0]
    else names[0] + sep + JoinWith(names[1..], sep)
  }

  predicate IsDigits(s: string)
  {
    forall i :: 0 <= i < |s| ==> '0' <= s[i] <= '9'
  }

  function Digit(d: nat): (c: char)
    requires d < 10
    ensures '0' <= c <= '9' && c as int - '0' as int == d
  {
    "0123456789"[d]
  }

  /** A count written in decimal, as a template literal renders a non-negative integer. */
  function Decimal(n: nat): (s: string)
    ensures |s| > 0 && IsDigits(s)
    ensures n == 0 <==> s == "0"
    ensures |s| == 1 || s[0] != '0'
  {
    if n < 10 then [Digit(n)] else Decimal(n / 10) + [Digit(n % 10)]
  }

  /** The value of a string of decimal digits. */
  function DigitsValue(s: string): nat
    requires IsDigits(s)
  {
    if s == [] then 0
    else DigitsValue(s[..|s| - 1]) * 10 + (s[|s| - 1] as int - '0' as int)
  }

  /** Reading the rendered count back gives the count. */
  lemma {:induction false} DecimalRoundTrip(n: nat)
    ensures DigitsValue(Decimal(n)) == n
  {
    if n >= 10 {
      var s := Decimal(n);
      assert s[..|s| - 1] == Decimal(n / 10);
      DecimalRoundTrip(n / 10);
    }
  }

  /** The names the line shows: the first three at most. */
  function Shown(typing: seq<string>): seq<string>
  {
    typing[..Min(3, |typing|)]
  }

  /** The " et <k> autres" part for `n` typists. */
  function Others(n: nat): string
  {
    if n > 3 then " et " + Decimal(n - 3) + " autres" else ""
  }

  /** The verb, agreeing with `n`. */
  function Verb(n: nat): string
  {
    if n > 1 then Plural else Singular
  }

  /** The line under the title: empty when nobody types. */
  function TypingText(typing: seq<string>): string
  {
    var n := |typing|;
    if n == 0 then "" else JoinWith(Shown(typing), Separator) + Others(n) + " " + Verb(n)
  }

  /** The two halves of a concatenation. */
  lemma Split(a: string, b: string)
    ensures (a + b)[..|a|] == a && (a + b)[|a|..] == b
  {
  }

  /** The line is empty exactly when nobody types. */
  lemma TypingTextEmpty(typing: seq<string>)
    ensures TypingText(typing) == "" <==> |typing| == 0
  {
  }

  /** The line ends with the plural verb exactly when several type, with the singular exactly when one does. */
  lemma TypingTextVerb(typing: seq<string>)
    ensures EndsWith(TypingText(typing), Plural) <==> |typing| > 1
    ensures EndsWith(TypingText(typing), Singular) <==> |typing| == 1
  {
    var n, t := |typing|, TypingText(typing);
    if n > 0 {
      var head := JoinWith(Shown(typing), Separator) + Others(n) + " ";
      var verb := Verb(n);
      assert t == head + verb;
      Split(head, verb);
      assert t[|t| - |verb|..] == verb;
      if n > 1 {
        assert t[|t| - |Singular|] == Plural[|Plural| - |Singular|] == 'i';
      } else {
        assert t[|t| - |Singular|] == 'é';
        assert Plural[|Plural| - |Singular|] == 'i';
      }
    }
  }

  /** After the names comes `Others(n) + " " + Verb(n)`. */
  lemma TypingTextParts(typing: seq<string>)
    requires |typing| > 0
    ensures var names := JoinWith(Shown(typing), Separator);
      var t := TypingText(typing);
      && StartsWith(t, names)
      && t[|names|..] == Others(|typing|) + " " + Verb(|typing|)
  {
  }

  /** The line opens with the first min(3, n) names joined by ", ". */
  lemma TypingTextNames(typing: seq<string>)
    requires |typing| > 0
    ensures |Shown(typing)| == Min(3, |typing|)
    ensures forall i :: 0 <= i < |Shown(typing)| ==> Shown(typing)[i] == typing[i]
    ensures StartsWith(TypingText(typing), JoinWith(Shown(typing), Separator))
  {
  }

  /**
   * What follows the names starts with " et " exactly when more than three
   * type, and then reads " et <n - 3> autres" before the verb.
   */
  lemma TypingTextOthers(typing: seq<string>)
    requires |typing| > 0
    ensures var names := JoinWith(Shown(typing), Separator);
      var rest := TypingText(typing)[|names|..];
      && (StartsWith(rest, " et ") <==> |typing| > 3)
      && (|typing| > 3 ==> rest == " et " + Decimal(|typing| - 3) + " autres " + Plural)
      && (|typing| <= 3 ==> rest == " " + Verb(|typing|))
  {
    var n := |typing|;
    TypingTextParts(typing);
    var rest := Others(n) + " " + Verb(n);
    if n <= 3 {
      assert Others(n) == "";
      assert rest == " " + Verb(n);
      assert rest[1] == 'é';
    } else {
      assert rest[..4] == " et ";
    }
  }

  /** Only the count and the first three names reach the line. */
  lemma TypingTextFirstThree(a: seq<string>, b: seq<string>)
    requires |a| == |b|
    requires Shown(a) == Shown(b)
    ensures TypingText(a) == TypingText(b)
  {
  }
}
