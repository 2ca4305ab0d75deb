/**
 * The numeric input normaliser applied to every form field before either
 * calculator runs: a missing value becomes 0, thousands separators and blanks
 * are deleted, and anything that does not parse to a finite number becomes 0.
 */
module NumericInput {
  import opened Wrappers

  /** What the host's string-to-number conversion can produce. */
  datatype JsNumber = Finite(value: real) | NaN | Infinite(negative: bool)

  /** The characters deleted before parsing: the comma and the blank. */
  predicate IsSeparator(c: char) {
    c == ',' || c == ' '
  }

  /** True when `s` holds no separator character. */
  predicate Clean(s: string) {
    forall i :: 0 <= i < |s| ==> !IsSeparator(s[i])
  }

  /** Number of occurrences of `c` in `s`. */
  function Occurrences(s: string, c: char): nat {
    if s == [] then 0 else (if s[0] == c then 1 else 0) + Occurrences(s[1..], c)
  }

  /**
   * Deletes every comma and blank, keeping the other characters in order.
   * The result is separator-free, never longer than the input, and keeps
   * exactly as many copies of every other character as the input has.
   */
  function StripSeparators(s: string): (r: string)
    ensures Clean(r)
    ensures |r| <= |s|
    ensures forall c :: !IsSeparator(c) ==> Occurrences(r, c) == Occurrences(s, c)
    ensures forall c :: IsSeparator(c) ==> Occurrences(r, c) == 0
  {
    if s == [] then []
    else if IsSeparator(s[0]) then StripSeparators(s[1..])
    else [s[0]] + StripSeparators(s[1..])
  }

  /** Stripping distributes over concatenation: the order of what is kept is the input's order. */
  lemma {:induction false} StripConcat(a: string, b: string)
    ensures StripSeparators(a + b) == StripSeparators(a) + StripSeparators(b)
  {
    if a == [] {
      assert a + b == b;
    } else {
      assert (a + b)[0] == a[0];
      assert (a + b)[1..] == a[1..] + b;
      StripConcat(a[1..], b);
    }
  }

  /** A string with no separators is left as it is. */
  lemma {:induction false} StripClean(s: string)
    requires Clean(s)
    ensures StripSeparators(s) == s
  {
    if s != [] {
      assert !IsSeparator(s[0]);
      assert Clean(s[1..]) by {
        forall i | 0 <= i < |s[1..]| ensures !IsSeparator(s[1..][i]) {
          assert s[1..][i] == s[i + 1];
        }
      }
      StripClean(s[1..]);
    }
  }

  /** Stripping twice is stripping once. */
  lemma StripIdempotent(s: string)
    ensures StripSeparators(StripSeparators(s)) == StripSeparators(s)
  {
    StripClean(StripSeparators(s));
  }

  /**
   * `parseNumericInput`: `None` stands for the source's null (or undefined)
   * field, and `parse` for the host's `Number` conversion, which this model
   * does not fix. The result is always a finite number.
   */
  function ParseNumericInput(raw: Option<string>, parse: string -> JsNumber): (r: real)
    ensures raw.None? ==> r == 0.0
    ensures raw.Some? && parse(StripSeparators(raw.value)).Finite? ==>
              r == parse(StripSeparators(raw.value)).value
    ensures raw.Some? && !parse(StripSeparators(raw.value)).Finite? ==> r == 0.0
  {
    match raw
    case None => 0.0
    case Some(text) =>
      match parse(StripSeparators(text))
      case Finite(v) => v
      case _ => 0.0
  }

  /**
   * The normalised value ignores separators: typing "5,000,000" or
   * "50 00 000" gives what "5000000" gives, and a separator inserted
   * anywhere changes nothing.
   */
  lemma SeparatorInsensitive(a: string, c: char, b: string, parse: string -> JsNumber)
    requires IsSeparator(c)
    ensures ParseNumericInput(Some(a + [c] + b), parse) == ParseNumericInput(Some(a + b), parse)
  {
    StripConcat(a + [c], b);
    StripConcat(a, [c]);
    StripConcat(a, b);
    assert StripSeparators([c]) == [];
    assert StripSeparators(a + [c]) == StripSeparators(a);
  }

  /** Normalising an already stripped text gives the same number. */
  lemma ParseOfStripped(s: string, parse: string -> JsNumber)
    ensures ParseNumericInput(Some(StripSeparators(s)), parse) == ParseNumericInput(Some(s), parse)
  {
    StripIdempotent(s);
  }
}
