/** The salon mode's PIN entry (`app/salon/page.tsx`): the field keeps only
    the decimal digits of what is typed, and the unlock button is enabled for
    a PIN of exactly four characters. */
module SalonPin {
  import opened Base
  import opened Text

  /** `value.replace(/\D/g, "")`: every character that is not `0`-`9` is
      removed. */
  function DigitsOnly(s: string): (r: string)
    ensures AllDigits(r)
  {
    FilterMembers(s, (c: char) => IsDigit(c));
    Filter(s, (c: char) => IsDigit(c))
  }

  /** The filter works character by character: a digit stays, anything else
      goes, and the filter of a concatenation is the concatenation of the
      filters, so the digits keep their order. */
  lemma DigitsOnlyPerCharacter(a: string, b: string, c: char)
    ensures DigitsOnly(a + b) == DigitsOnly(a) + DigitsOnly(b)
    ensures DigitsOnly([c]) == (if IsDigit(c) then [c] else [])
  {
    FilterConcat(a, b, (c: char) => IsDigit(c));
    FilterSnoc([], c, (c: char) => IsDigit(c));
    assert [] + [c] == [c];
  }

  /** Filtering leaves a string unchanged exactly when it is all digits: the
      filter itself cuts nothing off, whatever the length. */
  lemma DigitsOnlyKeepsDigitStrings(s: string)
    ensures DigitsOnly(s) == s <==> AllDigits(s)
  {
    if AllDigits(s) {
      FilterKeepsAll(s, (c: char) => IsDigit(c));
    }
  }

  /** Filtering twice is filtering once. */
  lemma DigitsOnlyIdempotent(s: string)
    ensures DigitsOnly(DigitsOnly(s)) == DigitsOnly(s)
  {
    DigitsOnlyKeepsDigitStrings(DigitsOnly(s));
  }

  /** With the field's four-character cap, the PIN has four characters
      exactly when the typed value is four digits. */
  lemma FourCharactersIffFourDigits(value: string)
    requires |value| <= 4
    ensures |DigitsOnly(value)| == 4 <==> |value| == 4 && AllDigits(value)
  {
    if |DigitsOnly(value)| == 4 && !AllDigits(value) {
      var i :| 0 <= i < |value| && !IsDigit(value[i]);
      FilterShorter(value, (c: char) => IsDigit(c), i);
    }
    DigitsOnlyKeepsDigitStrings(value);
  }

  /** The page's state. */
  class PinPage {
    var pin: string

    /** The field never holds more than four characters, all digits. */
    predicate Valid()
      reads this
    {
      |pin| <= 4 && AllDigits(pin)
    }

    constructor ()
      ensures pin == "" && Valid()
    {
      pin := "";
    }

    /** The field's `onChange`. `maxLength={4}` makes the browser hand over
        at most four characters. */
    method Change(value: string)
      requires |value| <= 4
      modifies this
      ensures pin == DigitsOnly(value)
      ensures Valid()
    {
      pin := DigitsOnly(value);
    }

    /** `disabled={pin.length !== 4}`. */
    predicate CanSubmit()
      reads this
      ensures Valid() && CanSubmit() ==> |pin| == 4 && forall i :: 0 <= i < |pin| ==> IsDigit(pin[i])
    {
      |pin| == 4
    }

    /** `handleSubmit`: the default form submission is prevented and nothing
        else happens; the PIN stays as it is. */
    method Submit() returns (defaultPrevented: bool)
      ensures defaultPrevented
    {
      defaultPrevented := true;
    }
  }
}
