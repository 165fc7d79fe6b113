/**
 * The "add to Google Calendar" link of a confirmed booking: a fixed address followed by the
 * `text`, `dates` and `details` query parameters. The two timestamps arrive already
 * formatted; the title and description have their spaces replaced by `+`.
 *
 * The query is read back by splitting at `&` and form-decoding each value, modelled here by
 * `ParseLink` and `FormDecode`. Replacing spaces alone does not survive that reading when the
 * title or description holds `&` or `+`; `EncodeComponent` and `CorrectedLink` escape those
 * characters as well.
 */
module CalendarLink {
  import opened Common

  const BaseUrl := "https://calendar.google.com/calendar/r/eventedit?"
  const TextKey := "text="
  const DatesKey := "&dates="
  const DetailsKey := "&details="
  /** Everything before the encoded title. */
  const Prefix := BaseUrl + TextKey

  /** `s.replace(" ", "+")`. */
  function ReplaceSpaces(s: string): (r: string)
    ensures |r| == |s|
    ensures forall i :: 0 <= i < |s| ==> r[i] == (if s[i] == ' ' then '+' else s[i])
    ensures ' ' !in r
  {
    if s == [] then [] else [if s[0] == ' ' then '+' else s[0]] + ReplaceSpaces(s[1..])
  }

  /** `getGoogleCalendarLink`, with the two timestamps already formatted. */
  function GoogleCalendarLink(title: string, description: string, startStr: string, endStr: string): (r: string)
    ensures |Prefix| <= |r| && r[..|Prefix|] == Prefix
  {
    BaseUrl + TextKey + ReplaceSpaces(title) + DatesKey + startStr + "/" + endStr + DetailsKey + ReplaceSpaces(description)
  }

  // ---------------------------------------------------------------------------------------
  // Reading a link back

  /** The position of the first `c` in `s`, or `|s|` when there is none. */
  function IndexOfChar(s: string, c: char): (i: nat)
    ensures i <= |s|
    ensures i < |s| ==> s[i] == c
    ensures forall j :: 0 <= j < i ==> s[j] != c
  {
    if s == [] then 0 else if s[0] == c then 0 else 1 + IndexOfChar(s[1..], c)
  }

  /** `s` cut before its first `c`: the part before and the part from `c` on. */
  function SplitAt(s: string, c: char): (r: (string, string))
    ensures r.0 + r.1 == s
    ensures c !in r.0
    ensures r.1 == [] || r.1[0] == c
  {
    var i := IndexOfChar(s, c);
    (s[..i], s[i..])
  }

  lemma {:induction false} IndexOfCharConcat(a: string, b: string, c: char)
    requires c !in a && |b| > 0 && b[0] == c
    ensures IndexOfChar(a + b, c) == |a|
  {
    if a != [] {
      assert (a + b)[1..] == a[1..] + b;
      IndexOfCharConcat(a[1..], b, c);
    }
  }

  lemma SplitAtConcat(a: string, b: string, c: char)
    requires c !in a && |b| > 0 && b[0] == c
    ensures SplitAt(a + b, c) == (a, b)
  {
    IndexOfCharConcat(a, b, c);
    assert (a + b)[..|a|] == a && (a + b)[|a|..] == b;
  }

  /** What follows `p` in `s`, when `s` starts with `p`. */
  function AfterPrefix(s: string, p: string): (r: Option<string>)
    ensures r.Some? <==> |p| <= |s| && s[..|p|] == p
    ensures r.Some? ==> s == p + r.value
  {
    if |p| <= |s| && s[..|p|] == p then Some(s[|p|..]) else None
  }

  lemma AfterPrefixConcat(p: string, rest: string)
    ensures AfterPrefix(p + rest, p) == Some(rest)
  {
    assert (p + rest)[..|p|] == p;
    assert (p + rest)[|p|..] == rest;
  }

  /** The `text`, `dates` and `details` values of a link, split at the `&` separators. */
  function ParseLink(link: string): Option<(string, string, string)> {
    var afterPrefix := AfterPrefix(link, Prefix);
    if afterPrefix.None? then None
    else
      var text := SplitAt(afterPrefix.value, '&');
      var afterText := AfterPrefix(text.1, DatesKey);
      if afterText.None? then None
      else
        var dates := SplitAt(afterText.value, '&');
        var afterDates := AfterPrefix(dates.1, DetailsKey);
        if afterDates.None? then None
        else Some((text.0, dates.0, afterDates.value))
  }

  /** Reading back a link built from three values, the first two free of `&`. */
  lemma LinkParts(text: string, dates: string, details: string)
    requires '&' !in text && '&' !in dates
    ensures ParseLink(Prefix + text + DatesKey + dates + DetailsKey + details) == Some((text, dates, details))
  {
    var tail2 := DetailsKey + details;
    var tail1 := DatesKey + (dates + tail2);
    assert Prefix + text + DatesKey + dates + DetailsKey + details == Prefix + (text + tail1);
    AfterPrefixConcat(Prefix, text + tail1);
    SplitAtConcat(text, tail1, '&');
    AfterPrefixConcat(DatesKey, dates + tail2);
    SplitAtConcat(dates, tail2, '&');
    AfterPrefixConcat(DetailsKey, details);
  }

  /** HTML form decoding: `+` is a space and a `%XX` escape of the four reserved characters is that character. */
  function FormDecode(s: string): (r: string)
    ensures |r| <= |s|
  {
    if s == [] then []
    else if s[0] == '+' then " " + FormDecode(s[1..])
    else if |s| >= 3 && s[..3] == "%2B" then "+" + FormDecode(s[3..])
    else if |s| >= 3 && s[..3] == "%26" then "&" + FormDecode(s[3..])
    else if |s| >= 3 && s[..3] == "%25" then "%" + FormDecode(s[3..])
    else if |s| >= 3 && s[..3] == "%23" then "#" + FormDecode(s[3..])
    else [s[0]] + FormDecode(s[1..])
  }

  /** Replacing spaces is undone by form decoding when the text holds no `+` and no `%`. */
  lemma {:induction false} ReplaceSpacesRoundTrip(s: string)
    requires '+' !in s && '%' !in s
    ensures FormDecode(ReplaceSpaces(s)) == s
  {
    if s != [] {
      var e := ReplaceSpaces(s);
      assert e[1..] == ReplaceSpaces(s[1..]);
      ReplaceSpacesRoundTrip(s[1..]);
    }
  }

  /** Without `&` in the title and the timestamps, the link reads back as its three parts. */
  lemma GoogleCalendarLinkParts(title: string, description: string, startStr: string, endStr: string)
    requires '&' !in title && '&' !in startStr && '&' !in endStr
    ensures ParseLink(GoogleCalendarLink(title, description, startStr, endStr))
         == Some((ReplaceSpaces(title), startStr + "/" + endStr, ReplaceSpaces(description)))
  {
    var t := ReplaceSpaces(title);
    var dates := startStr + "/" + endStr;
    assert GoogleCalendarLink(title, description, startStr, endStr)
        == Prefix + t + DatesKey + dates + DetailsKey + ReplaceSpaces(description);
    LinkParts(t, dates, ReplaceSpaces(description));
  }

  /** As written, an `&` in the title cuts the `text` value short and the link no longer reads back. */
  lemma AmpersandTitleBreaksLink()
    ensures ParseLink(GoogleCalendarLink("R&B", "", "1", "2")).None?
  {
    var tail := "&B" + DatesKey + "1/2" + DetailsKey;
    assert GoogleCalendarLink("R&B", "", "1", "2") == Prefix + ("R" + tail);
    AfterPrefixConcat(Prefix, "R" + tail);
    SplitAtConcat("R", tail, '&');
    assert tail[1] != DatesKey[1];
  }

  /** As written, a `+` in the title reads back as a space. */
  lemma PlusInTitleReadsAsSpace()
    ensures FormDecode(ReplaceSpaces("C++")) == "C  "
  {
    assert ReplaceSpaces("C++") == "C++";
  }

  // ---------------------------------------------------------------------------------------
  // Corrected encoding

  /** The escape of one character: space to `+`, the four reserved characters to `%XX`. */
  function EncodeChar(c: char): (r: string)
    ensures '&' !in r && ' ' !in r
    ensures 1 <= |r| <= 3
  {
    if c == ' ' then "+"
    else if c == '+' then "%2B"
    else if c == '&' then "%26"
    else if c == '%' then "%25"
    else if c == '#' then "%23"
    else [c]
  }

  /** A query value with every character escaped that would change how the link reads back. */
  function EncodeComponent(s: string): (r: string)
    ensures '&' !in r && ' ' !in r
  {
    if s == [] then [] else EncodeChar(s[0]) + EncodeComponent(s[1..])
  }

  lemma DecodeEncodedChar(c: char, rest: string)
    ensures FormDecode(EncodeChar(c) + rest) == [c] + FormDecode(rest)
  {
    var e := EncodeChar(c) + rest;
    if c == ' ' || c == '+' || c == '&' || c == '%' || c == '#' {
      assert e[..|EncodeChar(c)|] == EncodeChar(c);
      assert e[|EncodeChar(c)|..] == rest;
    } else {
      assert e[0] == c && e[1..] == rest;
    }
  }

  /** Every string survives encoding and form decoding. */
  lemma {:induction false} EncodeComponentRoundTrip(s: string)
    ensures FormDecode(EncodeComponent(s)) == s
  {
    if s != [] {
      DecodeEncodedChar(s[0], EncodeComponent(s[1..]));
      EncodeComponentRoundTrip(s[1..]);
    }
  }

  /** The link with title and description escaped as query values. */
  function CorrectedLink(title: string, description: string, startStr: string, endStr: string): (r: string)
    ensures |Prefix| <= |r| && r[..|Prefix|] == Prefix
  {
    BaseUrl + TextKey + EncodeComponent(title) + DatesKey + startStr + "/" + endStr + DetailsKey + EncodeComponent(description)
  }

  /** Any title and description read back unchanged from the corrected link. */
  lemma CorrectedLinkRoundTrip(title: string, description: string, startStr: string, endStr: string)
    requires '&' !in startStr && '&' !in endStr
    ensures var parts := ParseLink(CorrectedLink(title, description, startStr, endStr));
      && parts.Some?
      && FormDecode(parts.value.0) == title
      && parts.value.1 == startStr + "/" + endStr
      && FormDecode(parts.value.2) == description
  {
    var dates := startStr + "/" + endStr;
    assert CorrectedLink(title, description, startStr, endStr)
        == Prefix + EncodeComponent(title) + DatesKey + dates + DetailsKey + EncodeComponent(description);
    LinkParts(EncodeComponent(title), dates, EncodeComponent(description));
    EncodeComponentRoundTrip(title);
    EncodeComponentRoundTrip(description);
  }
}
