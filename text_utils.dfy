/** Small pure text helpers of the app: truncation, relative time, plurals and
    the part of the day. The clock is a parameter. */
module TextUtils {

  import opened Options

  /** The characters JavaScript's String.prototype.trim removes: white space
      (including the Unicode space separators) and line terminators. */
  predicate IsSpace(c: char) {
    c == '\t' || c == '\n' || c == '\U{000B}' || c == '\U{000C}' || c == '\r' ||
    c == ' ' || c == '\U{00A0}' || c == '\U{1680}' ||
    ('\U{2000}' <= c <= '\U{200A}') || c == '\U{2028}' || c == '\U{2029}' ||
    c == '\U{202F}' || c == '\U{205F}' || c == '\U{3000}' || c == '\U{FEFF}'
  }

  /** No white space at either end. */
  predicate Trimmed(t: string) {
    t == [] || (!IsSpace(t[0]) && !IsSpace(t[|t| - 1]))
  }

  /** The first index from i on that does not hold white space (|s| if none). */
  function SkipSpaces(s: string, i: nat): (n: nat)
    requires i <= |s|
    ensures i <= n <= |s|
    ensures n < |s| ==> !IsSpace(s[n])
    ensures forall k :: i <= k < n ==> IsSpace(s[k])
    decreases |s| - i
  {
    if i < |s| && IsSpace(s[i]) then SkipSpaces(s, i + 1) else i
  }

  /** Moving back from j, no further than lo, the end of the last character
      that is not white space (lo if none). */
  function SkipSpacesBack(s: string, lo: nat, j: nat): (n: nat)
    requires lo <= j <= |s|
    ensures lo <= n <= j
    ensures n > lo ==> !IsSpace(s[n - 1])
    ensures forall k :: n <= k < j ==> IsSpace(s[k])
    decreases j
  {
    if j > lo && IsSpace(s[j - 1]) then SkipSpacesBack(s, lo, j - 1) else j
  }

  /** How many white space characters Trim cuts from the front of s. */
  function Lead(s: string): (n: nat)
    ensures n <= |s|
  {
    SkipSpaces(s, 0)
  }

  /** JavaScript's trim: the part of s from Lead(s) on with no white space at
      either end, where everything cut off is white space. */
  function Trim(s: string): (r: string)
    ensures Lead(s) + |r| <= |s|
    ensures r == s[Lead(s)..Lead(s) + |r|]
    ensures Trimmed(r)
    ensures forall k :: 0 <= k < Lead(s) ==> IsSpace(s[k])
    ensures forall k :: Lead(s) + |r| <= k < |s| ==> IsSpace(s[k])
  {
    var lo := SkipSpaces(s, 0);
    var hi := SkipSpacesBack(s, lo, |s|);
    s[lo..hi]
  }

  /** Trimming twice is trimming once. */
  lemma {:induction false} TrimIdempotent(s: string)
    ensures Trim(Trim(s)) == Trim(s)
  {
    var t := Trim(s);
    TrimOfTrimmed(t);
  }

  /** A string with no white space at either end is its own trim. */
  lemma {:induction false} TrimOfTrimmed(t: string)
    requires Trimmed(t)
    ensures Trim(t) == t
  {
    assert Lead(t) == 0;
    assert t[0..|t|] == t;
  }

  const Ellipsis: string := "..."

  const DefaultMaxLength: nat := 75

  /** truncateText: a prompt no longer than maxLength is returned unchanged;
      a longer one is cut to its first maxLength characters, trimmed, and
      followed by an ellipsis, so it never exceeds maxLength plus the ellipsis. */
  function TruncateText(prompt: string, maxLength: nat := DefaultMaxLength): (r: string)
    ensures |prompt| <= maxLength ==> r == prompt
    ensures |prompt| > maxLength ==>
      |Ellipsis| <= |r| <= maxLength + |Ellipsis| && r[|r| - |Ellipsis|..] == Ellipsis
  {
    if |prompt| > maxLength then
      var r := Trim(prompt[..maxLength]) + Ellipsis;
      assert r[|r| - |Ellipsis|..] == Ellipsis;
      r
    else prompt
  }

  /** What a long prompt keeps before the ellipsis is a contiguous part of its
      first maxLength characters with no white space at either end; every
      character of that prefix outside the kept part is white space. */
  lemma TruncateKeptText(prompt: string, maxLength: nat)
    requires |prompt| > maxLength
    ensures var kept := Trim(prompt[..maxLength]);
      var lead := Lead(prompt[..maxLength]);
      TruncateText(prompt, maxLength) == kept + Ellipsis &&
      lead + |kept| <= maxLength && kept == prompt[lead..lead + |kept|] && Trimmed(kept) &&
      (forall k :: 0 <= k < maxLength && (k < lead || lead + |kept| <= k) ==> IsSpace(prompt[k]))
  {
    var head := prompt[..maxLength];
    var kept := Trim(head);
    var lead := Lead(head);
    assert TruncateText(prompt, maxLength) == kept + Ellipsis;
    assert head[lead..lead + |kept|] == prompt[lead..lead + |kept|];
    forall k | 0 <= k < maxLength && (k < lead || lead + |kept| <= k)
      ensures IsSpace(prompt[k])
    {
      assert head[k] == prompt[k];
    }
  }

  // ---------------------------------------------------------------------------
  // timeAgo

  datatype TimeUnit = Seconds | Minutes | Hours | Days | Weeks

  /** The unit word as printed; it is never singularised. */
  function UnitWord(u: TimeUnit): string {
    match u
    case Seconds => "seconds"
    case Minutes => "minutes"
    case Hours => "hours"
    case Days => "days"
    case Weeks => "weeks"
  }

  /** Length of one unit in seconds. */
  function UnitSeconds(u: TimeUnit): (n: nat)
    ensures n > 0
  {
    match u
    case Seconds => 1
    case Minutes => 60
    case Hours => 60 * 60
    case Days => 24 * 60 * 60
    case Weeks => 7 * 24 * 60 * 60
  }

  datatype Elapsed = Elapsed(count: int, unit: TimeUnit)

  /** Whole seconds between a date and now (both in milliseconds), floored as
      Math.floor does; Dafny's division by a positive number floors too. */
  function ElapsedSeconds(nowMs: int, dateMs: int): int {
    (nowMs - dateMs) / 1000
  }

  /** The count and unit timeAgo reports: each count is the floor of the
      previous one, stepping up a unit while it reaches 60 s, 60 min, 24 h
      and 7 days. The contract states the same choice as one division of the
      elapsed seconds by the length of the chosen unit. */
  function TimeAgoParts(nowMs: int, dateMs: int): (e: Elapsed)
    ensures var s := ElapsedSeconds(nowMs, dateMs);
      (e.unit == Seconds <==> s < 60) &&
      (e.unit == Minutes <==> 60 <= s < 60 * 60) &&
      (e.unit == Hours <==> 60 * 60 <= s < 24 * 60 * 60) &&
      (e.unit == Days <==> 24 * 60 * 60 <= s < 7 * 24 * 60 * 60) &&
      (e.unit == Weeks <==> 7 * 24 * 60 * 60 <= s)
    ensures e.count == ElapsedSeconds(nowMs, dateMs) / UnitSeconds(e.unit)
    ensures e.unit != Seconds ==> e.count >= 1
    ensures e.unit == Seconds || e.unit == Minutes ==> e.count < 60
    ensures e.unit == Hours ==> e.count < 24
    ensures e.unit == Days ==> e.count < 7
  {
    var seconds := ElapsedSeconds(nowMs, dateMs);
    if seconds < 60 then Elapsed(seconds, Seconds)
    else
      var minutes := seconds / 60;
      DivDiv(seconds, 60, 60);
      DivDiv(seconds, 60 * 60, 24);
      DivDiv(seconds, 24 * 60 * 60, 7);
      if minutes < 60 then Elapsed(minutes, Minutes)
      else
        var hours := minutes / 60;
        if hours < 24 then Elapsed(hours, Hours)
        else
          var days := hours / 24;
          if days < 7 then Elapsed(days, Days)
          else Elapsed(days / 7, Weeks)
  }

  /** Flooring twice is flooring once by the product. */
  lemma DivDiv(a: int, b: int, c: int)
    requires a >= 0 && b > 0 && c > 0
    ensures a / b / c == a / (b * c)
  {
    var q, r := a / b, a % b;
    var q2, r2 := q / c, q % c;
    assert b * q == b * (c * q2 + r2) == (b * c) * q2 + b * r2;
    MulBelow(b, r2, c);
    DivUnique(a, b * c, q2, b * r2 + r);
  }

  /** b * r2 + r stays below b * c when r2 < c and r < b. */
  lemma MulBelow(b: int, r2: int, c: int)
    requires b > 0 && 0 <= r2 < c
    ensures 0 <= b * r2 && b * r2 + b <= b * c
  {
    assert b * c - b * r2 == b * (c - r2);
    MulAtLeast(b, c - r2);
    MulNonNeg(b, r2);
  }

  lemma MulNonNeg(d: int, k: int)
    requires d >= 0 && k >= 0
    ensures d * k >= 0
  {}

  lemma {:induction false} MulAtLeast(d: int, k: int)
    requires d > 0 && k >= 1
    ensures d * k >= d
    decreases k
  {
    if k > 1 {
      MulAtLeast(d, k - 1);
      assert d * k == d * (k - 1) + d;
    }
  }

  /** Division is determined by any quotient and in-range remainder. */
  lemma DivUnique(a: int, d: int, q: int, r: int)
    requires d > 0 && a == d * q + r && 0 <= r < d
    ensures a / d == q
  {
    var q0, r0 := a / d, a % d;
    assert d * q0 + r0 == d * q + r;
    if q0 < q {
      assert d * q - d * q0 == d * (q - q0);
      MulAtLeast(d, q - q0);
    } else if q0 > q {
      assert d * q0 - d * q == d * (q0 - q);
      MulAtLeast(d, q0 - q);
    }
  }

  /** Decimal digits of a natural number, most significant first, as a
      JavaScript template literal prints it. */
  function NatToString(n: nat): (s: string)
    ensures |s| >= 1
    ensures forall k :: 0 <= k < |s| ==> '0' <= s[k] <= '9'
    ensures |s| > 1 ==> s[0] != '0'
    decreases n
  {
    if n < 10 then [DigitChar(n)] else NatToString(n / 10) + [DigitChar(n % 10)]
  }

  function DigitChar(d: nat): (c: char)
    requires d < 10
    ensures '0' <= c <= '9'
  {
    (48 + d) as char
  }

  /** The number a string of decimal digits denotes. */
  function DigitsValue(s: string): nat
    requires forall k :: 0 <= k < |s| ==> '0' <= s[k] <= '9'
  {
    if s == [] then 0 else 10 * DigitsValue(s[..|s| - 1]) + ((s[|s| - 1] as int) - 48)
  }

  /** Printing a number and reading the digits back gives the number. */
  lemma {:induction false} NatToStringRoundTrip(n: nat)
    ensures DigitsValue(NatToString(n)) == n
    decreases n
  {
    if n >= 10 {
      NatToStringRoundTrip(n / 10);
      var s := NatToString(n);
      assert s[..|s| - 1] == NatToString(n / 10);
    }
  }

  /** A number as a template literal prints it (a minus sign for negatives). */
  function IntToString(i: int): string {
    if i < 0 then "-" + NatToString(-i) else NatToString(i)
  }

  /** timeAgo(date), with the current time passed in. The unit word is
      always the plural one, and a date in the future prints a negative
      count. */
  function TimeAgo(nowMs: int, dateMs: int): (r: string)
    ensures |r| > 5 && r[|r| - 5..] == "s ago"
    ensures r[0] == '-' <==> ElapsedSeconds(nowMs, dateMs) < 0
  {
    var e := TimeAgoParts(nowMs, dateMs);
    var tail := " " + UnitWord(e.unit) + " ago";
    assert tail[|tail| - 5..] == "s ago";
    var r := IntToString(e.count) + tail;
    assert r[|r| - 5..] == tail[|tail| - 5..];
    assert r[0] == IntToString(e.count)[0];
    r
  }

  /** The text of timeAgo is an optional minus sign, the digits of the
      count, a space, the plural unit word and " ago"; the digits read back
      to the count's magnitude, and the sign is there exactly when the date
      lies in the future. */
  lemma TimeAgoReadsBack(nowMs: int, dateMs: int)
    ensures var e := TimeAgoParts(nowMs, dateMs);
      var digits := NatToString(if e.count < 0 then -e.count else e.count);
      var sign := if e.count < 0 then "-" else "";
      TimeAgo(nowMs, dateMs) == sign + digits + " " + UnitWord(e.unit) + " ago" &&
      DigitsValue(digits) == (if e.count < 0 then -e.count else e.count) &&
      (e.count < 0 <==> nowMs < dateMs)
    ensures nowMs >= dateMs ==>
      var e := TimeAgoParts(nowMs, dateMs);
      var digits := NatToString(e.count);
      TimeAgo(nowMs, dateMs)[..|digits|] == digits && DigitsValue(digits) == e.count
  {
    var e := TimeAgoParts(nowMs, dateMs);
    ElapsedNegative(nowMs, dateMs);
    var digits := NatToString(if e.count < 0 then -e.count else e.count);
    NatToStringRoundTrip(if e.count < 0 then -e.count else e.count);
    var sign := if e.count < 0 then "-" else "";
    var word := UnitWord(e.unit);
    assert IntToString(e.count) == sign + digits;
    JoinText(sign, digits, word);
    if e.count >= 0 {
      assert sign + digits == digits;
    }
  }

  /** Regrouping the pieces of the text. */
  lemma JoinText(sign: string, digits: string, word: string)
    ensures (sign + digits) + (" " + word + " ago") == sign + digits + " " + word + " ago"
    ensures sign == "" ==> (digits + (" " + word + " ago"))[..|digits|] == digits
  {}

  /** Any date in the future, even by one millisecond, is a negative
      number of whole seconds ago, as Math.floor rounds down. */
  lemma ElapsedNegative(nowMs: int, dateMs: int)
    ensures ElapsedSeconds(nowMs, dateMs) < 0 <==> nowMs < dateMs
  {
    var d := nowMs - dateMs;
    if d < 0 {
      assert d / 1000 * 1000 <= d;
    } else {
      assert d / 1000 >= 0;
    }
  }

  /** One minute reads "1 minutes ago": the unit is never singular. */
  lemma TimeAgoOneMinute()
    ensures TimeAgo(60000, 0) == "1 minutes ago"
  {
    assert TimeAgoParts(60000, 0) == Elapsed(1, Minutes);
  }

  /** A date five seconds in the future reads "-5 seconds ago". */
  lemma TimeAgoFuture()
    ensures TimeAgo(0, 5000) == "-5 seconds ago"
  {
    assert TimeAgoParts(0, 5000) == Elapsed(-5, Seconds);
  }

  // ---------------------------------------------------------------------------
  // pluralize and getTimeOfDay

  /** pluralize: the singular word for a count of exactly one, otherwise the
      given plural word unless it is missing or empty, then the singular with
      an "s" appended. */
  function Pluralize(singularWord: string, count: int, pluralWord: Option<string> := None): (r: string)
    ensures count == 1 ==> r == singularWord
    ensures count != 1 && pluralWord.Some? && pluralWord.value != "" ==> r == pluralWord.value
    ensures count != 1 && (pluralWord.None? || pluralWord.value == "") ==> r == singularWord + "s"
    ensures r == singularWord <==> count == 1 || (pluralWord == Some(singularWord) && singularWord != "")
  {
    if count == 1 then singularWord
    else if pluralWord.Some? && pluralWord.value != "" then pluralWord.value
    else
      assert |singularWord + "s"| != |singularWord|;
      singularWord + "s"
  }

  /** getTimeOfDay, with the current hour (0..23) passed in. */
  function GetTimeOfDay(hours: int): (r: string)
    ensures r == "morning" <==> hours < 12
    ensures r == "afternoon" <==> 12 <= hours < 16
    ensures r == "evening" <==> hours >= 16
  {
    if hours < 12 then "morning" else if hours < 16 then "afternoon" else "evening"
  }
}
