/** The WhatsApp deep links the pages build: `https://wa.me/91` (India's
    country code), the digits of a phone number, then `?text=` and a
    prefilled message. */
module WhatsApp {
  import opened Options
  import opened Strings

  const Prefix := "https://wa.me/91"
  const TextMarker := "?text="

  function Link(digits: string, text: string): string {
    Prefix + digits + TextMarker + text
  }

  /** The position of the first `c` in `s`, or `|s|`. */
  function IndexOf(s: string, c: char): (n: nat)
    ensures n <= |s|
    ensures forall i :: 0 <= i < n ==> s[i] != c
    ensures n < |s| ==> s[n] == c
  {
    if s == [] || s[0] == c then 0 else 1 + IndexOf(s[1..], c)
  }

  /** Read a link back into the number after the prefix (up to the first
      `?`) and the text after `?text=`. */
  function ParseLink(url: string): Option<(string, string)> {
    if !StartsWith(url, Prefix) then None
    else
      var rest := url[|Prefix|..];
      var n := IndexOf(rest, '?');
      if !StartsWith(rest[n..], TextMarker) then None
      else Some((rest[..n], rest[n + |TextMarker|..]))
  }

  /** A link built from a string of digits reads back as that number and that text. */
  lemma LinkRoundTrip(digits: string, text: string)
    requires AllDigits(digits)
    ensures ParseLink(Link(digits, text)) == Some((digits, text))
  {
    var url := Link(digits, text);
    assert url[..|Prefix|] == Prefix;
    var rest := url[|Prefix|..];
    assert rest == digits + TextMarker + text;
    assert rest[|digits|] == '?';
    assert IndexOf(rest, '?') == |digits|;
    assert rest[|digits|..] == TextMarker + text;
    assert rest[..|digits|] == digits;
  }
}
